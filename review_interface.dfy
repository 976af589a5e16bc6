/** The review screen: for each of six clinical fields the doctor's text
    and the AI's text side by side, one of them selected; the doctor picks a
    source, edits a text, and finally sends the selected texts off to
    generate the final document. */
module Review {
  import opened Strings
  import opened Wrappers
  import FinalDocument

  datatype Source = Doctor | Ai

  /** The wire value of a source ('doctor' or 'ai'). */
  function SourceName(s: Source): string {
    match s
    case Doctor => "doctor"
    case Ai => "ai"
  }

  /** One reviewed field (`ReviewFieldData`). */
  datatype ReviewField = ReviewField(doctor: string, ai: string, selected: Source)

  function TextOf(f: ReviewField, s: Source): string {
    match s
    case Doctor => f.doctor
    case Ai => f.ai
  }

  /** `{...f, [source]: text, selected: source}` */
  function SaveText(f: ReviewField, s: Source, text: string): (r: ReviewField)
    ensures TextOf(r, s) == text && r.selected == s
    ensures forall o: Source | o != s :: TextOf(r, o) == TextOf(f, o)
  {
    match s
    case Doctor => ReviewField(text, f.ai, s)
    case Ai => ReviewField(f.doctor, text, s)
  }

  datatype ReviewData = ReviewData(
    hda: ReviewField, comorbidades: ReviewField, medicacoes: ReviewField,
    alergias: ReviewField, hipoteseDiagnostica: ReviewField, conduta: ReviewField)

  datatype ReviewKey = Hda | Comorbidades | Medicacoes | Alergias | HipoteseDiagnostica | Conduta

  /** The keys in declaration order, the order of `Object.values(reviewData)`. */
  const AllKeys: seq<ReviewKey> := [Hda, Comorbidades, Medicacoes, Alergias, HipoteseDiagnostica, Conduta]

  /** The property name of each key. */
  function KeyName(k: ReviewKey): string {
    match k
    case Hda => "hda"
    case Comorbidades => "comorbidades"
    case Medicacoes => "medicacoes"
    case Alergias => "alergias"
    case HipoteseDiagnostica => "hipoteseDiagnostica"
    case Conduta => "conduta"
  }

  function GetField(d: ReviewData, k: ReviewKey): ReviewField {
    match k
    case Hda => d.hda
    case Comorbidades => d.comorbidades
    case Medicacoes => d.medicacoes
    case Alergias => d.alergias
    case HipoteseDiagnostica => d.hipoteseDiagnostica
    case Conduta => d.conduta
  }

  /** `{...d, [k]: f}` */
  function WithField(d: ReviewData, k: ReviewKey, f: ReviewField): (r: ReviewData)
    ensures GetField(r, k) == f
    ensures forall j: ReviewKey | j != k :: GetField(r, j) == GetField(d, j)
  {
    match k
    case Hda => d.(hda := f)
    case Comorbidades => d.(comorbidades := f)
    case Medicacoes => d.(medicacoes := f)
    case Alergias => d.(alergias := f)
    case HipoteseDiagnostica => d.(hipoteseDiagnostica := f)
    case Conduta => d.(conduta := f)
  }

  /** `handleFieldSelect` on loaded data: only the field's selection changes. */
  function SelectSource(d: ReviewData, k: ReviewKey, s: Source): (r: ReviewData)
    ensures GetField(r, k) == GetField(d, k).(selected := s)
    ensures forall j: ReviewKey | j != k :: GetField(r, j) == GetField(d, j)
  {
    WithField(d, k, GetField(d, k).(selected := s))
  }

  // ---------------------------------------------------------------------------
  // The stored consultation and the initial mapping

  /** A stored column that may hold text or, for the yes/no questions, an
      object with an `especificar` member. */
  datatype StoredValue =
    | Absent                              // null or undefined
    | Text(s: string)
    | Structured(especificar: Option<string>)

  /** The text a stored value carries, if any. */
  function Carried(v: StoredValue): Option<string> {
    match v
    case Absent => None
    case Text(s) => Some(s)
    case Structured(e) => e
  }

  predicate HasText(v: StoredValue) {
    Carried(v).Some? && Carried(v).value != ""
  }

  /** `v || fallback` for a text column, and
      `typeof v === 'object' ? v?.especificar || fallback : v || fallback`
      for a yes/no column: the text it carries unless that is missing or empty. */
  function ShownText(v: StoredValue, fallback: string): (t: string)
    ensures HasText(v) ==> t == Carried(v).value
    ensures !HasText(v) ==> t == fallback
  {
    match v
    case Absent => fallback
    case Text(s) => if s == "" then fallback else s
    case Structured(e) => if e.None? || e.value == "" then fallback else e.value
  }

  function FromColumn(c: Option<string>): StoredValue {
    if c.None? then Absent else Text(c.value)
  }

  /** The columns of a stored consultation that the review reads: the doctor's
      original answers and the AI's answers. */
  datatype ConsultationRecord = ConsultationRecord(
    patientName: string, consultationType: string,
    hdaOriginal: Option<string>, hda: Option<string>,
    comorbidadesOriginal: StoredValue, comorbidades: StoredValue,
    medicacoesOriginal: StoredValue, medicacoes: StoredValue,
    alergiasOriginal: StoredValue, alergias: StoredValue,
    hipoteseDiagnosticaOriginal: Option<string>, hipoteseDiagnostica: Option<string>,
    condutaOriginal: Option<string>, conduta: Option<string>)

  function DoctorColumn(r: ConsultationRecord, k: ReviewKey): StoredValue {
    match k
    case Hda => FromColumn(r.hdaOriginal)
    case Comorbidades => r.comorbidadesOriginal
    case Medicacoes => r.medicacoesOriginal
    case Alergias => r.alergiasOriginal
    case HipoteseDiagnostica => FromColumn(r.hipoteseDiagnosticaOriginal)
    case Conduta => FromColumn(r.condutaOriginal)
  }

  function AiColumn(r: ConsultationRecord, k: ReviewKey): StoredValue {
    match k
    case Hda => FromColumn(r.hda)
    case Comorbidades => r.comorbidades
    case Medicacoes => r.medicacoes
    case Alergias => r.alergias
    case HipoteseDiagnostica => FromColumn(r.hipoteseDiagnostica)
    case Conduta => FromColumn(r.conduta)
  }

  /** 'Não informado' */
  const NotInformed: string := "N\U{00E3}o informado"
  /** 'Análise não disponível' */
  const NoAnalysis: string := "An\U{00E1}lise n\U{00E3}o dispon\U{00ED}vel"

  /** `mapField`: the doctor's side and the AI's side of one field, each the
      stored text or its placeholder, with the doctor's side selected. */
  function MapField(r: ConsultationRecord, k: ReviewKey): (f: ReviewField)
    ensures f.selected == Doctor
    ensures f.doctor == if HasText(DoctorColumn(r, k)) then Carried(DoctorColumn(r, k)).value else NotInformed
    ensures f.ai == if HasText(AiColumn(r, k)) then Carried(AiColumn(r, k)).value else NoAnalysis
  {
    ReviewField(ShownText(DoctorColumn(r, k), NotInformed), ShownText(AiColumn(r, k), NoAnalysis), Doctor)
  }

  /** The review data built from a loaded consultation: every field starts
      on the doctor's answer; each side shows the stored text, or its
      placeholder when nothing (or an empty text) is stored, so no side is
      ever empty. */
  function InitialReview(r: ConsultationRecord): (d: ReviewData)
    ensures forall k: ReviewKey :: GetField(d, k).selected == Doctor
    ensures forall k: ReviewKey :: GetField(d, k).doctor ==
              if HasText(DoctorColumn(r, k)) then Carried(DoctorColumn(r, k)).value else NotInformed
    ensures forall k: ReviewKey :: GetField(d, k).ai ==
              if HasText(AiColumn(r, k)) then Carried(AiColumn(r, k)).value else NoAnalysis
    ensures forall k: ReviewKey, s: Source :: TextOf(GetField(d, k), s) != ""
  {
    ReviewData(MapField(r, Hda), MapField(r, Comorbidades), MapField(r, Medicacoes),
               MapField(r, Alergias), MapField(r, HipoteseDiagnostica), MapField(r, Conduta))
  }

  // ---------------------------------------------------------------------------
  // The editing key

  /** `${field}-${source}` */
  function EditingKey(k: ReviewKey, s: Source): string {
    KeyName(k) + "-" + SourceName(s)
  }

  function KeyNamed(name: string): Option<ReviewKey> {
    if name == "hda" then Some(Hda)
    else if name == "comorbidades" then Some(Comorbidades)
    else if name == "medicacoes" then Some(Medicacoes)
    else if name == "alergias" then Some(Alergias)
    else if name == "hipoteseDiagnostica" then Some(HipoteseDiagnostica)
    else if name == "conduta" then Some(Conduta)
    else None
  }

  function SourceNamed(name: string): Option<Source> {
    if name == "doctor" then Some(Doctor) else if name == "ai" then Some(Ai) else None
  }

  /** `const [field, source] = editingField.split('-')`, read back as a key and a source. */
  function ParseEditingKey(e: string): (p: Option<(ReviewKey, Source)>)
    ensures p.Some? ==>
      var key := EditingKey(p.value.0, p.value.1);
      key <= e && (|e| == |key| || e[|key|] == '-')
  {
    var parts := Split(e, '-');
    if |parts| < 2 then None
    else
      var k, s := KeyNamed(parts[0]), SourceNamed(parts[1]);
      JoinFirstTwo(parts, '-');
      if k.Some? && s.Some? then Some((k.value, s.value)) else None
  }

  /** No property name and no source name contains '-', so splitting the
      editing key recovers the field and the source it was made from. */
  lemma EditingKeyRoundTrip(k: ReviewKey, s: Source)
    ensures ParseEditingKey(EditingKey(k, s)) == Some((k, s))
  {
    var name, src := KeyName(k), SourceName(s);
    assert '-' !in name by {
      assert forall i | 0 <= i < |name| :: name[i] != '-';
    }
    assert '-' !in src by {
      assert forall i | 0 <= i < |src| :: src[i] != '-';
    }
    SplitPair(name, src, '-');
  }

  // ---------------------------------------------------------------------------
  // The payload and the counts

  /** The source chosen for each field (`selectedSources`). */
  datatype SelectedSources = SelectedSources(
    hda: Source, comorbidades: Source, medicacoes: Source,
    alergias: Source, hipoteseDiagnostica: Source, conduta: Source)

  /** What `handleGenerateDocument` sends (the timestamp left out). */
  datatype FinalPayload = FinalPayload(
    consultationId: string, patientName: string, consultationType: string,
    reviewedData: FinalDocument.ReviewedData, selectedSources: SelectedSources)

  function SelectedText(f: ReviewField): string {
    TextOf(f, f.selected)
  }

  function BuildPayload(id: string, r: ConsultationRecord, d: ReviewData): (p: FinalPayload)
    ensures p.consultationId == id && p.patientName == r.patientName && p.consultationType == r.consultationType
    ensures forall k: ReviewKey :: ReviewedText(p.reviewedData, k) == TextOf(GetField(d, k), GetField(d, k).selected)
    ensures forall k: ReviewKey :: SourceOf(p.selectedSources, k) == GetField(d, k).selected
  {
    FinalPayload(id, r.patientName, r.consultationType,
      FinalDocument.ReviewedData(SelectedText(d.hda), SelectedText(d.comorbidades), SelectedText(d.medicacoes),
                                 SelectedText(d.alergias), SelectedText(d.hipoteseDiagnostica), SelectedText(d.conduta)),
      SelectedSources(d.hda.selected, d.comorbidades.selected, d.medicacoes.selected,
                      d.alergias.selected, d.hipoteseDiagnostica.selected, d.conduta.selected))
  }

  function ReviewedText(rd: FinalDocument.ReviewedData, k: ReviewKey): string {
    match k
    case Hda => rd.hda
    case Comorbidades => rd.comorbidades
    case Medicacoes => rd.medicacoes
    case Alergias => rd.alergias
    case HipoteseDiagnostica => rd.hipoteseDiagnostica
    case Conduta => rd.conduta
  }

  function SourceOf(ss: SelectedSources, k: ReviewKey): Source {
    match k
    case Hda => ss.hda
    case Comorbidades => ss.comorbidades
    case Medicacoes => ss.medicacoes
    case Alergias => ss.alergias
    case HipoteseDiagnostica => ss.hipoteseDiagnostica
    case Conduta => ss.conduta
  }

  /** `Object.values(selectedSources)` as wire values. */
  function SourceValues(ss: SelectedSources): (vs: seq<string>)
    ensures |vs| == |AllKeys|
    ensures forall i | 0 <= i < |vs| :: vs[i] == SourceName(SourceOf(ss, AllKeys[i]))
  {
    [SourceName(ss.hda), SourceName(ss.comorbidades), SourceName(ss.medicacoes),
     SourceName(ss.alergias), SourceName(ss.hipoteseDiagnostica), SourceName(ss.conduta)]
  }

  /** The selections of the six fields, as wire values, in display order. */
  function Selections(d: ReviewData): (vs: seq<string>)
    ensures |vs| == |AllKeys|
    ensures forall i | 0 <= i < |vs| :: vs[i] == SourceName(GetField(d, AllKeys[i]).selected)
  {
    [SourceName(d.hda.selected), SourceName(d.comorbidades.selected), SourceName(d.medicacoes.selected),
     SourceName(d.alergias.selected), SourceName(d.hipoteseDiagnostica.selected), SourceName(d.conduta.selected)]
  }

  /** The summary's count of fields on source `s`
      (`Object.values(reviewData).filter(f => f.selected === s).length`). */
  function SelectedCount(d: ReviewData, s: Source): nat {
    FinalDocument.CountOf(Selections(d), SourceName(s))
  }

  /** Every field is on exactly one of the two sources, so the summary's two
      counts always add up to six. */
  lemma SummaryCountsAddUp(d: ReviewData)
    ensures SelectedCount(d, Doctor) + SelectedCount(d, Ai) == 6
  {
    var vs := Selections(d);
    assert forall i | 0 <= i < |vs| :: vs[i] == "doctor" || vs[i] == "ai";
    FinalDocument.CountsOfTwo(vs, "doctor", "ai");
  }

  /** The document built from the payload reports, as AI and doctor
      contributions, the same numbers the review summary showed, and copies
      the selected texts. */
  lemma DocumentMatchesSummary(id: string, r: ConsultationRecord, d: ReviewData)
    ensures var p := BuildPayload(id, r, d);
      var doc := FinalDocument.GenerateDocumentContent(p.patientName, p.consultationType,
                                                       p.reviewedData, SourceValues(p.selectedSources));
      && doc.metadata.aiContribution == SelectedCount(d, Ai)
      && doc.metadata.doctorContribution == SelectedCount(d, Doctor)
      && doc.metadata.aiContribution + doc.metadata.doctorContribution == 6
      && (forall k: ReviewKey :: ReviewedText(doc.content, k) == SelectedText(GetField(d, k)))
  {
    var p := BuildPayload(id, r, d);
    assert SourceValues(p.selectedSources) == Selections(d);
    FinalDocument.CountOfIsMultiplicity(Selections(d), "ai");
    FinalDocument.CountOfIsMultiplicity(Selections(d), "doctor");
    SummaryCountsAddUp(d);
  }

  // ---------------------------------------------------------------------------
  // The component

  /** The outcome of `getConsultationById`. */
  datatype LoadOutcome = LoadFailed | NotFound | Found(record: ConsultationRecord)

  /** The state of one `ReviewInterface` component. */
  class ReviewSession {
    const consultationId: string
    var reviewData: Option<ReviewData>
    var consultation: Option<ConsultationRecord>
    var loading: bool
    var editingField: Option<string>
    var editingText: string
    var generatingDocument: bool

    /** Data and record are loaded together, and an editing key always names a field and a source. */
    ghost predicate Valid()
      reads this
    {
      && reviewData.Some? == consultation.Some?
      && (editingField.Some? ==> ParseEditingKey(editingField.value).Some?)
    }

    constructor (id: string)
      ensures Valid()
      ensures consultationId == id && reviewData == None && consultation == None && loading
      ensures editingField == None && editingText == "" && !generatingDocument
    {
      consultationId := id;
      reviewData, consultation, loading := None, None, true;
      editingField, editingText, generatingDocument := None, "", false;
    }

    /** `loadConsultationData`: a found consultation is mapped into fresh
        review data; a missing one or a failed read sends the user back
        (`wentBack`) and leaves the data as it was; loading ends either way. */
    method Load(outcome: LoadOutcome) returns (wentBack: bool)
      requires Valid()
      modifies this`reviewData, this`consultation, this`loading
      ensures Valid() && !loading
      ensures wentBack <==> !outcome.Found?
      ensures outcome.Found? ==>
        consultation == Some(outcome.record) && reviewData == Some(InitialReview(outcome.record))
      ensures !outcome.Found? ==> consultation == old(consultation) && reviewData == old(reviewData)
    {
      loading := true;
      if outcome.Found? {
        consultation := Some(outcome.record);
        reviewData := Some(InitialReview(outcome.record));
        wentBack := false;
      } else {
        wentBack := true;
      }
      loading := false;
    }

    /** `handleFieldSelect`: only the chosen field's selection changes; nothing happens before loading. */
    method FieldSelect(k: ReviewKey, s: Source)
      requires Valid()
      modifies this`reviewData
      ensures Valid()
      ensures old(reviewData).None? ==> reviewData == None
      ensures old(reviewData).Some? ==> reviewData == Some(SelectSource(old(reviewData).value, k, s))
    {
      if reviewData.Some? {
        reviewData := Some(SelectSource(reviewData.value, k, s));
      }
    }

    /** `handleEdit`: starts editing one side of one field with its current text. */
    method Edit(k: ReviewKey, s: Source)
      requires Valid()
      modifies this`editingField, this`editingText
      ensures Valid()
      ensures old(reviewData).None? ==> editingField == old(editingField) && editingText == old(editingText)
      ensures old(reviewData).Some? ==>
        editingField == Some(EditingKey(k, s)) && editingText == TextOf(GetField(reviewData.value, k), s)
    {
      if reviewData.Some? {
        EditingKeyRoundTrip(k, s);
        editingText := TextOf(GetField(reviewData.value, k), s);
        editingField := Some(EditingKey(k, s));
      }
    }

    /** Typing in the edit box. */
    method ChangeEditingText(t: string)
      requires Valid()
      modifies this`editingText
      ensures Valid() && editingText == t
    {
      editingText := t;
    }

    /** The Cancel button: stops editing; the typed text stays behind. */
    method CancelEdit()
      requires Valid()
      modifies this`editingField
      ensures Valid() && editingField == None
    {
      editingField := None;
    }

    /** `handleSaveEdit`: the typed text replaces the edited side of the
        field, that side becomes the selected one, every other field and the
        other side stay as they were, and editing ends. Nothing happens when
        nothing is being edited or nothing is loaded. */
    method SaveEdit()
      requires Valid()
      modifies this`reviewData, this`editingField, this`editingText
      ensures Valid()
      ensures old(editingField).None? || old(reviewData).None? ==>
        reviewData == old(reviewData) && editingField == old(editingField) && editingText == old(editingText)
      ensures old(editingField).Some? && old(reviewData).Some? ==>
        var (k, s) := ParseEditingKey(old(editingField).value).value;
        var d := old(reviewData).value;
        && reviewData.Some?
        && GetField(reviewData.value, k) == SaveText(GetField(d, k), s, old(editingText))
        && (forall j: ReviewKey | j != k :: GetField(reviewData.value, j) == GetField(d, j))
        && editingField == None && editingText == ""
    {
      if editingField.None? || reviewData.None? {
        return;
      }
      var (k, s) := ParseEditingKey(editingField.value).value;
      var d := reviewData.value;
      reviewData := Some(WithField(d, k, SaveText(GetField(d, k), s, editingText)));
      editingField := None;
      editingText := "";
    }

    /** `handleGenerateDocument` run to its end. `resultOk` is whether the
        document service reported success. Nothing is sent before loading;
        otherwise the payload carries each field's selected text and source,
        completion is reported only on success, and `generatingDocument` is
        false afterwards whatever the outcome. */
    method GenerateDocument(resultOk: bool) returns (sent: Option<FinalPayload>, completed: bool)
      requires Valid()
      modifies this`generatingDocument
      ensures Valid()
      ensures old(reviewData).None? ==> sent == None && !completed && generatingDocument == old(generatingDocument)
      ensures old(reviewData).Some? ==>
        && sent == Some(BuildPayload(consultationId, consultation.value, reviewData.value))
        && completed == resultOk
        && !generatingDocument
      ensures completed ==> sent.Some?
    {
      if reviewData.None? || consultation.None? {
        return None, false;
      }
      generatingDocument := true;
      sent := Some(BuildPayload(consultationId, consultation.value, reviewData.value));
      completed := resultOk;
      generatingDocument := false;
    }
  }
}
