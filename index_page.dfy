/** The dashboard page: the local list of consultations with its status
    counts, labels and initials, and the switch between the dashboard, the
    questionnaire and the review screen. */
module Dashboard {
  import opened Strings
  import opened Wrappers
  import FormTypes
  import Wizard

  datatype Status = InProgress | PendingReview | Completed

  function StatusName(s: Status): string {
    match s
    case InProgress => "in-progress"
    case PendingReview => "pending-review"
    case Completed => "completed"
  }

  /** 'Aguardando revisão' */
  const PendingLabel: string := "Aguardando revis\U{00E3}o"

  /** `getStatusText`: a fixed label for each known status; any other text is shown as it is. */
  function GetStatusText(status: string): (text: string)
    ensures status == "in-progress" ==> text == "Em andamento"
    ensures status == "pending-review" ==> text == PendingLabel
    ensures status == "completed" ==> text == "Finalizada"
    ensures status != "in-progress" && status != "pending-review" && status != "completed" ==> text == status
  {
    if status == "in-progress" then "Em andamento"
    else if status == "pending-review" then PendingLabel
    else if status == "completed" then "Finalizada"
    else status
  }

  /** The three statuses get three different labels. */
  lemma StatusLabelsDistinct(a: Status, b: Status)
    ensures GetStatusText(StatusName(a)) == GetStatusText(StatusName(b)) <==> a == b
  {
    assert PendingLabel[0] == 'A';
  }

  const NeutralColor: string := "bg-gray-100 text-gray-800"

  /** `getStatusColor`: a badge colour for each known status, grey for anything else. */
  function GetStatusColor(status: string): (color: string)
    ensures status == "in-progress" ==> color == "bg-blue-100 text-blue-800"
    ensures status == "pending-review" ==> color == "bg-yellow-100 text-yellow-800"
    ensures status == "completed" ==> color == "bg-green-100 text-green-800"
    ensures status != "in-progress" && status != "pending-review" && status != "completed" ==> color == NeutralColor
  {
    if status == "in-progress" then "bg-blue-100 text-blue-800"
    else if status == "pending-review" then "bg-yellow-100 text-yellow-800"
    else if status == "completed" then "bg-green-100 text-green-800"
    else NeutralColor
  }

  /** The three statuses get three different badge colours, none of them the
      grey one of an unknown status. */
  lemma StatusColorsDistinct(a: Status, b: Status)
    ensures GetStatusColor(StatusName(a)) == GetStatusColor(StatusName(b)) <==> a == b
    ensures GetStatusColor(StatusName(a)) != NeutralColor
  {
    assert "bg-blue-100 text-blue-800"[3] == 'b';
    assert "bg-yellow-100 text-yellow-800"[3] == 'y';
    assert "bg-green-100 text-green-800"[3] == 'g';
    assert NeutralColor[3] == 'g' && NeutralColor[4] == 'r' && "bg-green-100 text-green-800"[4] == 'r';
    assert NeutralColor[5] == 'a' && "bg-green-100 text-green-800"[5] == 'e';
  }

  /** A consultation as the dashboard lists it (its date left out). */
  datatype Entry = Entry(id: string, patientName: string, status: Status, consultationType: Option<string>)

  /** `consultations.filter(c => c.status === s).length` */
  function CountStatus(list: seq<Entry>, s: Status): (n: nat)
    ensures n <= |list|
  {
    if list == [] then 0
    else CountStatus(list[..|list| - 1], s) + (if list[|list| - 1].status == s then 1 else 0)
  }

  /** Every entry has exactly one status, so the three counts partition the total card. */
  lemma {:induction false} CountsPartition(list: seq<Entry>)
    ensures CountStatus(list, InProgress) + CountStatus(list, PendingReview) + CountStatus(list, Completed) == |list|
  {
    if list != [] {
      CountsPartition(list[..|list| - 1]);
    }
  }

  /** Prepending one entry adds one to the count of its status and leaves the others. */
  lemma {:induction false} CountAfterPrepend(e: Entry, list: seq<Entry>, s: Status)
    ensures CountStatus([e] + list, s) == CountStatus(list, s) + (if e.status == s then 1 else 0)
    decreases |list|
  {
    if list != [] {
      var init := list[..|list| - 1];
      CountAfterPrepend(e, init, s);
      assert ([e] + list)[..|list|] == [e] + init;
    } else {
      assert [e] + list == [e];
      assert [e][..0] == [];
    }
  }

  /** The parts that are not empty, in their order. */
  function NonEmptyParts(parts: seq<string>): (r: seq<string>)
    ensures |r| <= |parts|
    ensures forall i | 0 <= i < |r| :: r[i] != "" && r[i] in parts
    ensures forall p | p in parts && p != "" :: p in r
  {
    if parts == [] then []
    else (if parts[0] == "" then [] else [parts[0]]) + NonEmptyParts(parts[1..])
  }

  /** The words of a name: the non-empty parts between its spaces. */
  function Words(name: string): seq<string> {
    NonEmptyParts(Split(name, ' '))
  }

  /** The initials shown in each row:
      `name.split(' ').map(n => n[0]).join('').slice(0, 2)`. The first
      character of an empty part is `undefined`, which `join` renders as
      nothing, so the initials are the first characters of the first two
      words, in order. */
  function Initials(name: string): (r: string)
    ensures |r| == if |Words(name)| < 2 then |Words(name)| else 2
    ensures forall i | 0 <= i < |r| :: r[i] == Words(name)[i][0]
  {
    var firsts := FirstChars(Split(name, ' '));
    if |firsts| <= 2 then firsts else firsts[..2]
  }

  /** `parts.map(n => n[0]).join('')`: the first character of each non-empty
      part, in order, and nothing for an empty part. */
  function FirstChars(parts: seq<string>): (r: string)
    ensures |r| == |NonEmptyParts(parts)|
    ensures forall i | 0 <= i < |r| :: r[i] == NonEmptyParts(parts)[i][0]
  {
    if parts == [] then ""
    else (if parts[0] == "" then "" else [parts[0][0]]) + FirstChars(parts[1..])
  }

  /** A name of two words separated by one space has the first letter of
      each as its initials, e.g. "MS" for "Maria Silva". */
  lemma InitialsOfTwoWords(a: string, b: string)
    requires a != "" && b != "" && ' ' !in a && ' ' !in b
    ensures Initials(a + " " + b) == [a[0], b[0]]
  {
    SplitPair(a, b, ' ');
    assert a + " " + b == a + [' '] + b;
    var parts := [a, b];
    assert parts[1..] == [b] && parts[1..][1..] == [];
    assert NonEmptyParts(parts) == [a, b];
  }

  /** The initials of the first sample consultation. */
  lemma InitialsOfMariaSilva()
    ensures Initials("Maria Silva") == "MS"
  {
    assert "Maria Silva" == "Maria" + " " + "Silva";
    InitialsOfTwoWords("Maria", "Silva");
  }

  /** Each initial is a character of the name other than a space, and a name
      has initials exactly when it has a character other than a space. */
  lemma InitialsFromName(name: string)
    ensures forall i | 0 <= i < |Initials(name)| :: Initials(name)[i] in name && Initials(name)[i] != ' '
    ensures (exists k | 0 <= k < |name| :: name[k] != ' ') <==> |Initials(name)| >= 1
  {
    var parts := Split(name, ' ');
    var words := Words(name);
    PartsInName(parts, ' ');
    forall i | 0 <= i < |Initials(name)|
      ensures Initials(name)[i] in name && Initials(name)[i] != ' '
    {
      assert Initials(name)[i] == words[i][0];
      var j :| 0 <= j < |parts| && parts[j] == words[i];
      assert words[i][0] in parts[j];
    }
    if exists k | 0 <= k < |name| :: name[k] != ' ' {
      var k :| 0 <= k < |name| && name[k] != ' ';
      var j := SomePartNonEmpty(parts, ' ', k);
      assert parts[j] in words;
    }
    if |Initials(name)| >= 1 {
      var c := Initials(name)[0];
      var k :| 0 <= k < |name| && name[k] == c;
    }
  }

  /** Every character of a part of `Split(s, sep)` is a character of `s`. */
  lemma {:induction false} PartsInName(parts: seq<string>, sep: char)
    ensures forall j, c | 0 <= j < |parts| && c in parts[j] :: c in Join(parts, sep)
    decreases |parts|
  {
    if |parts| > 1 {
      PartsInName(parts[1..], sep);
      assert Join(parts, sep) == parts[0] + [sep] + Join(parts[1..], sep);
      forall j, c | 0 <= j < |parts| && c in parts[j] ensures c in Join(parts, sep) {
        if j > 0 {
          assert parts[j] == parts[1..][j - 1];
        }
      }
    }
  }

  /** A character other than the separator at position `k` of `Join(parts)` lies in a non-empty part. */
  lemma {:induction false} SomePartNonEmpty(parts: seq<string>, sep: char, k: nat) returns (j: nat)
    requires k < |Join(parts, sep)| && Join(parts, sep)[k] != sep
    ensures j < |parts| && parts[j] != ""
    decreases |parts|
  {
    if |parts| == 0 {
      assert false;
    } else if |parts| == 1 {
      j := 0;
    } else {
      var s := Join(parts, sep);
      assert s == parts[0] + [sep] + Join(parts[1..], sep);
      if k < |parts[0]| {
        j := 0;
      } else {
        assert k != |parts[0]|;
        assert Join(parts[1..], sep)[k - |parts[0]| - 1] == s[k];
        var j' := SomePartNonEmpty(parts[1..], sep, k - |parts[0]| - 1);
        j := j' + 1;
        assert parts[j] == parts[1..][j'];
      }
    }
  }

  /** What the page shows. */
  datatype View = DashboardView | ConsultationView | ReviewView

  datatype Screen = DashboardScreen | FormScreen | ReviewScreen(consultationId: string)

  /** The page's choice of screen: the questionnaire, the review of the
      selected consultation (only with a non-empty selection), or the dashboard. */
  function ShownScreen(view: View, selected: Option<string>): (s: Screen)
    ensures s.ReviewScreen? <==> view == ReviewView && selected.Some? && selected.value != ""
    ensures s.ReviewScreen? ==> s.consultationId == selected.value
    ensures s == FormScreen <==> view == ConsultationView
  {
    if view == ConsultationView then FormScreen
    else if view == ReviewView && selected.Some? && selected.value != "" then ReviewScreen(selected.value)
    else DashboardScreen
  }

  /** 'Avaliação médica' */
  const DefaultConsultationType: string := "Avalia\U{00E7}\U{00E3}o m\U{00E9}dica"

  /** `prev.map(c => c.id === id ? {...c, status: 'completed'} : c)` */
  function CompleteById(list: seq<Entry>, id: string): (r: seq<Entry>)
    ensures |r| == |list|
    ensures forall i | 0 <= i < |list| :: r[i] == if list[i].id == id then list[i].(status := Completed) else list[i]
  {
    if list == [] then []
    else [if list[0].id == id then list[0].(status := Completed) else list[0]] + CompleteById(list[1..], id)
  }

  /** Completing one consultation never lowers the count of completed ones
      and never raises the count of those waiting for review. */
  lemma {:induction false} CompleteByIdCount(list: seq<Entry>, id: string)
    ensures CountStatus(CompleteById(list, id), Completed) >= CountStatus(list, Completed)
    ensures CountStatus(CompleteById(list, id), PendingReview) <= CountStatus(list, PendingReview)
    ensures |CompleteById(list, id)| == |list|
  {
    if list != [] {
      var init := list[..|list| - 1];
      CompleteByIdCount(init, id);
      var r := CompleteById(list, id);
      assert r[..|r| - 1] == CompleteById(init, id);
    }
  }

  /** The state of the `Index` page. */
  class DashboardPage {
    var activeView: View
    var consultations: seq<Entry>
    var selectedConsultation: Option<string>

    /** The page opens on the dashboard with two sample consultations. */
    constructor ()
      ensures activeView == DashboardView && selectedConsultation == None
      ensures consultations == [
        Entry("1", "Maria Silva", PendingReview, Some(DefaultConsultationType)),
        Entry("2", "Jo\U{00E3}o Santos", Completed, Some("Reavalia\U{00E7}\U{00E3}o m\U{00E9}dica"))]
    {
      activeView := DashboardView;
      selectedConsultation := None;
      consultations := [
        Entry("1", "Maria Silva", PendingReview, Some(DefaultConsultationType)),
        Entry("2", "Jo\U{00E3}o Santos", Completed, Some("Reavalia\U{00E7}\U{00E3}o m\U{00E9}dica"))];
    }

    /** `startNewConsultation` */
    method StartNewConsultation()
      modifies this`activeView
      ensures activeView == ConsultationView
    {
      activeView := ConsultationView;
    }

    /** `openReview`: selects the consultation and switches to its review. */
    method OpenReview(id: string)
      modifies this`activeView, this`selectedConsultation
      ensures activeView == ReviewView && selectedConsultation == Some(id)
      ensures id != "" ==> ShownScreen(activeView, selectedConsultation) == ReviewScreen(id)
    {
      selectedConsultation := Some(id);
      activeView := ReviewView;
    }

    /** `handleConsultationComplete`: the finished questionnaire becomes a new
        entry in front of the list, waiting for review, typed with the
        questionnaire's type value or 'Avaliação médica' when none was
        chosen; the page returns to the dashboard. `newId` stands for the
        time-based id. */
    method HandleConsultationComplete(data: Wizard.FinalData, newId: string)
      modifies this`consultations, this`activeView
      ensures activeView == DashboardView
      ensures |consultations| == |old(consultations)| + 1 && consultations[1..] == old(consultations)
      ensures consultations[0].id == newId && consultations[0].patientName == "Novo Paciente"
      ensures consultations[0].status == PendingReview
      ensures consultations[0].consultationType ==
        Some(if data.form.consultationType == FormTypes.Unset then DefaultConsultationType
             else FormTypes.TypeValue(data.form.consultationType))
      ensures CountStatus(consultations, PendingReview) == CountStatus(old(consultations), PendingReview) + 1
      ensures CountStatus(consultations, Completed) == CountStatus(old(consultations), Completed)
    {
      var t := FormTypes.TypeValue(data.form.consultationType);
      var e := Entry(newId, "Novo Paciente", PendingReview, Some(if t == "" then DefaultConsultationType else t));
      CountAfterPrepend(e, consultations, PendingReview);
      CountAfterPrepend(e, consultations, Completed);
      consultations := [e] + consultations;
      activeView := DashboardView;
    }

    /** The review's `onComplete`: only the entries whose id is the selected
        one become completed; the page returns to the dashboard. */
    method ReviewCompleted()
      requires selectedConsultation.Some?
      modifies this`consultations, this`activeView
      ensures activeView == DashboardView
      ensures consultations == CompleteById(old(consultations), selectedConsultation.value)
      ensures CountStatus(consultations, Completed) >= CountStatus(old(consultations), Completed)
    {
      CompleteByIdCount(consultations, selectedConsultation.value);
      consultations := CompleteById(consultations, selectedConsultation.value);
      activeView := DashboardView;
    }

    /** The questionnaire's `onCancel` and the review's `onBack`. */
    method BackToDashboard()
      modifies this`activeView
      ensures activeView == DashboardView
    {
      activeView := DashboardView;
    }
  }
}
