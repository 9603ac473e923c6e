/**
 * The patient page of the front end: it loads a patient with their
 * diagnoses and immunizations, prepends diagnoses announced by the realtime
 * channel, and records a new diagnosis from the add-diagnosis form, refusing
 * on the spot a one-time disease the patient already has on the page.
 */
module PatientDetail {
  import opened Records
  import opened Text
  import opened OneTimeRule
  import opened RecentSearches

  const RepeatedTestWarning := "Repeated test not required: Patient already has this diagnosis."
  const AlertPrefix := "Error adding diagnosis: "

  datatype DiagnosisForm = DiagnosisForm(name: string, description: string)

  const EmptyForm := DiagnosisForm("", "")

  /** The row the page asks the store to insert; the ids may be missing. */
  datatype DiagnosisInsert = DiagnosisInsert(
    patientId: Option<string>,
    diagnosisName: string,
    description: string,
    doctorId: Option<string>)

  /**
   * The page refuses to submit `name` when it is a one-time disease and some
   * diagnosis already on the page has the same name up to case.
   */
  predicate IsBlocked(name: string, shown: seq<Diagnosis>): (r: bool)
    ensures r ==> IsOneTimeDisease(name) && shown != []
    ensures IsOneTimeDisease(name) && (exists i :: 0 <= i < |shown| && shown[i].diagnosisName == name) ==> r
  {
    IsOneTimeDisease(name) && SomeSameDisease(shown, name)
  }

  /** Blocking in terms of positions of the list shown. */
  lemma IsBlockedIff(name: string, shown: seq<Diagnosis>)
    ensures IsBlocked(name, shown) <==>
      IsOneTimeDisease(name) && exists i :: 0 <= i < |shown| && SameDisease(shown[i].diagnosisName, name)
  {
    SomeSameDiseaseIff(shown, name);
  }

  /** A name outside the one-time list is never blocked, whatever is shown. */
  lemma OtherDiseasesNeverBlocked(name: string, shown: seq<Diagnosis>)
    requires !IsOneTimeDisease(name)
    ensures !IsBlocked(name, shown)
  {
  }

  /** An error of the insert that the page shows as a warning rather than an alert. */
  predicate IsRedundantError(e: StoreError): (r: bool)
    ensures e.code == "REDUNDANT_DIAGNOSIS" || StartsWith(e.message, "one-time disease") ==> r
    ensures r ==> e.code == "REDUNDANT_DIAGNOSIS" || |e.message| >= |"one-time disease"|
  {
    e.code == "REDUNDANT_DIAGNOSIS" || Contains(e.message, "one-time disease")
  }

  /** `error.message || <the default warning>`. */
  function WarningFor(e: StoreError): (r: string)
    ensures r != []
    ensures r == e.message || (e.message == [] && r == RepeatedTestWarning)
  {
    if e.message != "" then e.message else RepeatedTestWarning
  }

  /** `[data, ...prev]`: the fetched record of a realtime insert in front of the list. */
  function Prepended(shown: seq<Diagnosis>, fetched: Option<Diagnosis>): (r: seq<Diagnosis>)
    ensures fetched.None? ==> r == shown
    ensures fetched.Some? ==> |r| == |shown| + 1 && r[0] == fetched.value && r[1..] == shown
  {
    if fetched.Some? then [fetched.value] + shown else shown
  }

  /**
   * There is no de-duplication: a record delivered again is counted again.
   * And once a one-time disease is shown, be it loaded or delivered, a
   * repeat of it in any case is blocked.
   */
  lemma PrependedCountsAndBlocks(shown: seq<Diagnosis>, d: Diagnosis, name: string)
    ensures multiset(Prepended(shown, Some(d))) == multiset(shown) + multiset{d}
    ensures IsOneTimeDisease(name) && SameDisease(d.diagnosisName, name) ==> IsBlocked(name, Prepended(shown, Some(d)))
  {
    assert Prepended(shown, Some(d)) == [d] + shown;
  }

  /** The component state of the page. */
  datatype PageState = PageState(
    patient: Option<Patient>,
    diagnoses: seq<Diagnosis>,
    immunizations: seq<Immunization>,
    loading: bool,
    showAddModal: bool,
    form: DiagnosisForm,
    submitting: bool,
    warning: Option<string>,
    alerts: seq<string>)

  class PatientDetailPage {
    /** The `:id` of the route. */
    const routeId: Option<string>
    /** The page's use of the recent-searches history. */
    const history: RecentSearchHistory

    var patient: Option<Patient>
    var diagnoses: seq<Diagnosis>
    var immunizations: seq<Immunization>
    var loading: bool
    var showAddModal: bool
    var form: DiagnosisForm
    var submitting: bool
    var warning: Option<string>
    /** The messages passed to `alert`, oldest first. */
    var alerts: seq<string>

    ghost function State(): PageState
      reads this
    {
      PageState(patient, diagnoses, immunizations, loading, showAddModal, form, submitting, warning, alerts)
    }

    /** The initial state, before anything is loaded. */
    constructor (routeId: Option<string>, history: RecentSearchHistory)
      ensures this.routeId == routeId && this.history == history
      ensures State() == PageState(None, [], [], true, false, EmptyForm, false, None, [])
    {
      this.routeId := routeId;
      this.history := history;
      patient := None;
      diagnoses := [];
      immunizations := [];
      loading := true;
      showAddModal := false;
      form := EmptyForm;
      submitting := false;
      warning := None;
      alerts := [];
    }

    /**
     * The three initial queries have answered (`None` is a response without
     * data). Without a route id nothing is loaded at all. Otherwise each list
     * is replaced only by data that came back, a found patient is added to the
     * recent searches, and loading ends.
     */
    method LoadInitial(patientRes: Option<Patient>, diagnosesRes: Option<seq<Diagnosis>>,
                       immunizationsRes: Option<seq<Immunization>>, searchedAt: string)
      modifies this, history
      ensures !Truthy(routeId) ==>
        State() == old(State()) && history.list == old(history.list) && history.stored == old(history.stored)
      ensures Truthy(routeId) ==> State() == old(State()).(
        patient := if patientRes.Some? then patientRes else old(patient),
        diagnoses := diagnosesRes.GetOr(old(diagnoses)),
        immunizations := immunizationsRes.GetOr(old(immunizations)),
        loading := false)
      ensures Truthy(routeId) && patientRes.Some? ==>
        history.list == WithSearch(old(history.list), patientRes.value.passportId, patientRes.value.fullName, searchedAt)
        && history.stored == Some(Parsed(history.list))
      ensures Truthy(routeId) && patientRes.None? ==>
        history.list == old(history.list) && history.stored == old(history.stored)
    {
      if !(routeId.Some? && routeId.value != "") {
        return;
      }
      if patientRes.Some? {
        patient := patientRes;
        history.AddSearch(patientRes.value.passportId, patientRes.value.fullName, searchedAt);
      }
      if diagnosesRes.Some? {
        diagnoses := diagnosesRes.value;
      }
      if immunizationsRes.Some? {
        immunizations := immunizationsRes.value;
      }
      loading := false;
    }

    /** The realtime channel announced an insert and the re-fetch of the record gave `fetched`. */
    method OnRealtimeInsert(fetched: Option<Diagnosis>)
      modifies this
      ensures State() == old(State()).(diagnoses := Prepended(old(diagnoses), fetched))
    {
      if fetched.Some? {
        diagnoses := [fetched.value] + diagnoses;
      }
    }

    method OpenAddModal()
      modifies this
      ensures State() == old(State()).(showAddModal := true)
    {
      showAddModal := true;
    }

    method EditName(name: string)
      modifies this
      ensures State() == old(State()).(form := old(form).(name := name))
    {
      form := form.(name := name);
    }

    method EditDescription(description: string)
      modifies this
      ensures State() == old(State()).(form := old(form).(description := description))
    {
      form := form.(description := description);
    }

    /** The Cancel button closes the modal and clears the warning; the form keeps its text. */
    method CancelAddModal()
      modifies this
      ensures State() == old(State()).(showAddModal := false, warning := None)
    {
      showAddModal := false;
      warning := None;
    }

    /**
     * Submitting the add-diagnosis form. The warning is cleared first. A
     * blocked one-time disease sets the repeated-test warning and sends
     * nothing. Otherwise the form is sent (`sent`) and the store answers
     * `insertError`: on success the modal closes, the form empties and the
     * warning stays clear; a redundancy error becomes the warning; any other
     * error becomes an alert. On every path submitting ends false, and the
     * shown diagnoses are left to the realtime channel. `userId` is the
     * signed-in user's id, if any.
     */
    method HandleAddDiagnosis(userId: Option<string>, insertError: Option<StoreError>) returns (sent: Option<DiagnosisInsert>)
      modifies this
      ensures IsBlocked(old(form.name), old(diagnoses)) ==>
        sent.None? && State() == old(State()).(warning := Some(RepeatedTestWarning), submitting := false)
      ensures !IsBlocked(old(form.name), old(diagnoses)) ==>
        sent == Some(DiagnosisInsert(routeId, old(form.name), old(form.description), userId))
      ensures !IsBlocked(old(form.name), old(diagnoses)) && insertError.None? ==>
        State() == old(State()).(showAddModal := false, form := EmptyForm, warning := None, submitting := false)
      ensures !IsBlocked(old(form.name), old(diagnoses)) && insertError.Some? && IsRedundantError(insertError.value) ==>
        State() == old(State()).(warning := Some(WarningFor(insertError.value)), submitting := false)
      ensures !IsBlocked(old(form.name), old(diagnoses)) && insertError.Some? && !IsRedundantError(insertError.value) ==>
        State() == old(State()).(warning := None, submitting := false,
                                 alerts := old(alerts) + [AlertPrefix + insertError.value.message])
    {
      submitting := true;
      warning := None;

      if IsOneTimeDisease(form.name) {
        var alreadyShown := SomeSameDisease(diagnoses, form.name);
        if alreadyShown {
          warning := Some(RepeatedTestWarning);
          submitting := false;
          sent := None;
          return;
        }
      }

      sent := Some(DiagnosisInsert(routeId, form.name, form.description, userId));

      if insertError.Some? {
        var error := insertError.value;
        if error.code == "REDUNDANT_DIAGNOSIS" || Contains(error.message, "one-time disease") {
          warning := Some(WarningFor(error));
        } else {
          alerts := alerts + [AlertPrefix + error.message];
        }
      } else {
        showAddModal := false;
        form := EmptyForm;
        warning := None;
      }
      submitting := false;
    }
  }

  /**
   * A doctor records measles for a patient with nothing on record; the row
   * comes back over the realtime channel; a second submission spelled
   * "MEASLES" is then refused on the page and sends nothing.
   */
  method RepeatBlockedOnPage(patient: Patient, delivered: Diagnosis) returns (first: Option<DiagnosisInsert>, second: Option<DiagnosisInsert>)
    requires delivered.diagnosisName == "measles"
    ensures first.Some? && first.value.diagnosisName == "measles"
    ensures second.None?
  {
    MeaslesSpellings();
    var history := new RecentSearchHistory(None);
    var page := new PatientDetailPage(Some(patient.id), history);
    OneTimeRule.SomeSameDiseaseIff([], "measles");
    page.LoadInitial(Some(patient), Some([]), Some([]), "2024-01-01T00:00:00.000Z");
    page.OpenAddModal();
    page.EditName("measles");
    page.EditDescription("fever");
    first := page.HandleAddDiagnosis(Some("doctor-id"), None);
    page.OnRealtimeInsert(Some(delivered));
    page.OpenAddModal();
    page.EditName("MEASLES");
    PrependedCountsAndBlocks([], delivered, "MEASLES");
    second := page.HandleAddDiagnosis(Some("doctor-id"), None);
  }
}
