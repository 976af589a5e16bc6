/** The consultation-list hook: the list of stored consultations with its
    loading and error flags, refreshed from the database and updated locally
    by id. The database calls are outcomes passed in. */
module ConsultationStore {
  import opened Wrappers

  datatype Status = InProgress | PendingReview | Completed | GeneratingAnalysis

  /** A stored consultation, with the columns the list works on. */
  datatype Consultation = Consultation(id: string, patientName: string, consultationType: string, status: Status)

  /** `Partial<ConsultationRecord>`: each column either given or absent. */
  datatype ConsultationUpdate = ConsultationUpdate(
    id: Option<string>, patientName: Option<string>, consultationType: Option<string>, status: Option<Status>)

  /** `{...c, ...u}`: the columns `u` gives replace those of `c`. */
  function Merge(c: Consultation, u: ConsultationUpdate): (r: Consultation)
    ensures r.id == (if u.id.Some? then u.id.value else c.id)
    ensures r.patientName == (if u.patientName.Some? then u.patientName.value else c.patientName)
    ensures r.consultationType == (if u.consultationType.Some? then u.consultationType.value else c.consultationType)
    ensures r.status == (if u.status.Some? then u.status.value else c.status)
  {
    Consultation(
      if u.id.Some? then u.id.value else c.id,
      if u.patientName.Some? then u.patientName.value else c.patientName,
      if u.consultationType.Some? then u.consultationType.value else c.consultationType,
      if u.status.Some? then u.status.value else c.status)
  }

  /** The update that gives no column. */
  const NoChange: ConsultationUpdate := ConsultationUpdate(None, None, None, None)

  /** `{...u1, ...u2}`: the columns of `u2`, and those of `u1` that `u2` does not give. */
  function Override(u1: ConsultationUpdate, u2: ConsultationUpdate): ConsultationUpdate {
    ConsultationUpdate(
      if u2.id.Some? then u2.id else u1.id,
      if u2.patientName.Some? then u2.patientName else u1.patientName,
      if u2.consultationType.Some? then u2.consultationType else u1.consultationType,
      if u2.status.Some? then u2.status else u1.status)
  }

  /** An update that gives no column changes nothing, and applying the same
      update twice is applying it once. */
  lemma MergeNoChangeAndIdempotent(c: Consultation, u: ConsultationUpdate)
    ensures Merge(c, NoChange) == c
    ensures Merge(Merge(c, u), u) == Merge(c, u)
  {
  }

  /** Two updates in a row are the one update in which the later columns
      override the earlier ones. */
  lemma MergeOverride(c: Consultation, u1: ConsultationUpdate, u2: ConsultationUpdate)
    ensures Merge(Merge(c, u1), u2) == Merge(c, Override(u1, u2))
  {
  }

  /** `prev.map(c => c.id === id ? {...c, status} : c)` */
  function SetStatusById(list: seq<Consultation>, id: string, s: Status): (r: seq<Consultation>)
    ensures |r| == |list|
    ensures forall i | 0 <= i < |list| :: r[i] == if list[i].id == id then list[i].(status := s) else list[i]
  {
    if list == [] then []
    else [if list[0].id == id then list[0].(status := s) else list[0]] + SetStatusById(list[1..], id, s)
  }

  /** `prev.map(c => c.id === id ? {...c, ...u} : c)` */
  function MergeById(list: seq<Consultation>, id: string, u: ConsultationUpdate): (r: seq<Consultation>)
    ensures |r| == |list|
    ensures forall i | 0 <= i < |list| :: r[i] == if list[i].id == id then Merge(list[i], u) else list[i]
  {
    if list == [] then []
    else [if list[0].id == id then Merge(list[0], u) else list[0]] + MergeById(list[1..], id, u)
  }

  /** A status update is a partial update that gives only the status. */
  lemma SetStatusIsMerge(list: seq<Consultation>, id: string, s: Status)
    ensures SetStatusById(list, id, s) == MergeById(list, id, ConsultationUpdate(None, None, None, Some(s)))
  {
  }

  /** Setting the same status twice is the same as setting it once, and the
      ids of the list never change. */
  lemma SetStatusIdempotent(list: seq<Consultation>, id: string, s: Status)
    ensures SetStatusById(SetStatusById(list, id, s), id, s) == SetStatusById(list, id, s)
    ensures forall i | 0 <= i < |list| :: SetStatusById(list, id, s)[i].id == list[i].id
  {
  }

  /** Afterwards every entry with that id has the new status, and the
      entries with the new status are those that had it before plus those
      with that id. */
  lemma SetStatusReachesAll(list: seq<Consultation>, id: string, s: Status)
    ensures var r := SetStatusById(list, id, s);
      forall i | 0 <= i < |r| :: r[i].status == s <==> list[i].id == id || list[i].status == s
  {
  }

  /** Two updates of the same id in a row are the one combined update, as
      long as the first leaves the id as it is. */
  lemma {:induction false} MergeByIdOverride(list: seq<Consultation>, id: string, u1: ConsultationUpdate, u2: ConsultationUpdate)
    requires u1.id == None || u1.id == Some(id)
    ensures MergeById(MergeById(list, id, u1), id, u2) == MergeById(list, id, Override(u1, u2))
  {
    var once := MergeById(list, id, u1);
    forall i | 0 <= i < |list|
      ensures MergeById(once, id, u2)[i] == MergeById(list, id, Override(u1, u2))[i]
    {
      MergeOverride(list[i], u1, u2);
    }
  }

  /** Updating with no columns leaves the list as it is. */
  lemma MergeByIdNoChange(list: seq<Consultation>, id: string)
    ensures MergeById(list, id, NoChange) == list
  {
    forall i | 0 <= i < |list| ensures MergeById(list, id, NoChange)[i] == list[i] {
      MergeNoChangeAndIdempotent(list[i], NoChange);
    }
  }

  /** The outcome of `getAllConsultations`: the rows, or a thrown value that
      carries a message when it is an `Error`. */
  datatype FetchOutcome = Fetched(rows: seq<Consultation>) | FetchThrew(message: Option<string>)

  const DefaultFetchError: string := "Erro ao carregar consultas"

  /** The state of `useConsultations`. */
  class ConsultationList {
    var consultations: seq<Consultation>
    var loading: bool
    var error: Option<string>

    constructor ()
      ensures consultations == [] && loading && error == None
    {
      consultations, loading, error := [], true, None;
    }

    /** `fetchConsultations`: the rows replace the list and the error is
        cleared; on failure the list stays and the error is the thrown
        message, or a fixed text when the thrown value is not an `Error`.
        Loading is over either way. */
    method FetchConsultations(outcome: FetchOutcome)
      modifies this
      ensures !loading
      ensures outcome.Fetched? ==> consultations == outcome.rows && error == None
      ensures outcome.FetchThrew? ==>
        && consultations == old(consultations)
        && error == Some(if outcome.message.Some? then outcome.message.value else DefaultFetchError)
    {
      loading := true;
      error := None;
      if outcome.Fetched? {
        consultations := outcome.rows;
      } else {
        var message := outcome.message;
        error := Some(if message.Some? then message.value else DefaultFetchError);
      }
      loading := false;
    }

    /** `updateConsultationStatus`: after the service accepted the change,
        every entry with that id takes the new status and nothing else
        changes; when the service threw, the list is untouched. */
    method UpdateConsultationStatus(id: string, s: Status, serviceOk: bool)
      modifies this`consultations
      ensures serviceOk ==> consultations == SetStatusById(old(consultations), id, s)
      ensures !serviceOk ==> consultations == old(consultations)
    {
      if serviceOk {
        consultations := SetStatusById(consultations, id, s);
      }
    }

    /** `addConsultation`: the new entry goes in front of the old list. */
    method AddConsultation(c: Consultation)
      modifies this`consultations
      ensures consultations == [c] + old(consultations)
      ensures |consultations| == |old(consultations)| + 1 && consultations[0] == c
      ensures consultations[1..] == old(consultations)
    {
      consultations := [c] + consultations;
    }

    /** `updateConsultation`: the given columns are merged into the entries with that id only. */
    method UpdateConsultation(id: string, u: ConsultationUpdate)
      modifies this`consultations
      ensures consultations == MergeById(old(consultations), id, u)
    {
      consultations := MergeById(consultations, id, u);
    }
  }
}
