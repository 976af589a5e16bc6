/** The form-state hook of the questionnaire: the initial record and the
    four updaters, each of which rebuilds the record with one field replaced. */
module ConsultationFormState {
  import opened FormTypes
  import opened Strings

  const DefaultEstadoGeral :=
    "Paciente em regular estado geral, l\U{00FA}cido, "
    + "orientado no tempo e no espa\U{00E7}o, "
    + "acian\U{00F3}tico, anict\U{00E9}rico e afebril. "
    + "Pele e mucosas coradas e hidratadas."
  const DefaultRespiratorio :=
    "- T\U{00F3}rax sim\U{00E9}trico, sem deformidades. "
    + "Expansibilidade pulmonar preservada. - Ausculta: "
    + "Murm\U{00FA}rio vesicular fisiol\U{00F3}gico "
    + "presente bilateral, sem ru\U{00ED}dos "
    + "advent\U{00ED}cios."
  const DefaultCardiovascular :=
    "- Ausculta: Ritmo card\U{00ED}aco regular em dois "
    + "tempos, sem sopros."
  const DefaultAbdome :=
    "- Abdome plano, ru\U{00ED}dos hidroa\U{00E9}reos "
    + "presentes, normotimp\U{00E2}nico, indolor \U{00E0} "
    + "palpa\U{00E7}\U{00E3}o, sem massa ou "
    + "visceromegalias, sem sinais de peritonite."
  const DefaultExtremidades :=
    "- Extremidades superiores e inferiores sem edemas, "
    + "panturrilhas livres, TEC < 3s. Pulsos "
    + "palp\U{00E1}veis e sim\U{00E9}tricos."
  const DefaultNervoso :=
    "- ECG 15, Pupilas isoc\U{00F3}ricas e foto "
    + "reativas. For\U{00E7}a muscular preservada nos 4 "
    + "membros (grau 5). M\U{00ED}mica facial preservada. "
    + "Movimento extraocular preservado. Sensibilidade "
    + "sem altera\U{00E7}\U{00F5}es."
  const DefaultOrofaringe :=
    "- A mucosa bucal est\U{00E1} \U{00FA}mida e "
    + "corada, sem les\U{00F5}es vis\U{00ED}veis. As "
    + "am\U{00ED}gdalas s\U{00E3}o sim\U{00E9}tricas, sem "
    + "sinais de hiperemia ou exsudato. Os arcos "
    + "palatinos est\U{00E3}o sem "
    + "altera\U{00E7}\U{00F5}es, e a faringe est\U{00E1} "
    + "clara, sem edema ou secre\U{00E7}\U{00E3}o "
    + "purulenta."
  const DefaultOtoscopia :=
    "- As orelhas externas est\U{00E3}o sem "
    + "altera\U{00E7}\U{00F5}es vis\U{00ED}veis. O "
    + "conduto auditivo externo est\U{00E1} livre, sem "
    + "secre\U{00E7}\U{00F5}es ou corpos estranhos. O "
    + "t\U{00ED}mpano apresenta colora\U{00E7}\U{00E3}o "
    + "normal, est\U{00E1} intacto, sem sinais de otite "
    + "ou perfura\U{00E7}\U{00E3}o, e o refletor da luz "
    + "est\U{00E1} bem definido em ambos os ouvidos."
  const DefaultConduta :=
    "- " + "Oriento sinais de alarme e retorno em caso de "
    + "n\U{00E3}o melhora dos sintomas;\n"
    + "- " + "Prescrito sintom\U{00E1}ticos;"

  const EmptyConditional := ConditionalField("", "")

  /** The record the questionnaire starts from. */
  function InitialFormData(): ConsultationFormData {
    ConsultationFormData(
      consultationType := Unset,
      protocols := Protocols(SepseAdulto(false, false, false), false, false, false, false),
      hda := "",
      comorbidades := EmptyConditional,
      medicacoes := EmptyConditional,
      alergias := EmptyConditional,
      sinaisVitais := SinaisVitais("", "", "", "", "", "", "", ""),
      exameFisico := ExameFisico(DefaultEstadoGeral, DefaultRespiratorio, DefaultCardiovascular,
                                 DefaultAbdome, DefaultExtremidades, DefaultNervoso,
                                 DefaultOrofaringe, DefaultOtoscopia),
      hipoteseDiagnostica := "",
      conduta := DefaultConduta,
      examesComplementares := "",
      reavaliacaoMedica := "",
      complementoEvolucao := "")
  }

  /** What the questionnaire starts with: no type, empty history and
      diagnosis, every yes/no question unanswered, every protocol off,
      and pre-filled physical exam and plan. */
  lemma InitialFormFacts()
    ensures InitialFormData().consultationType == Unset
    ensures InitialFormData().hda == "" && InitialFormData().hipoteseDiagnostica == ""
    ensures forall p: ConditionalParent :: GetParent(InitialFormData(), p).tem == ""
    ensures forall f: ProtocolFlag :: !GetProtocol(InitialFormData().protocols, f)
    ensures forall f: SepseFlag :: !GetSepse(InitialFormData().protocols.sepseAdulto, f)
    ensures forall e: ExamSection :: GetExam(InitialFormData().exameFisico, e) != ""
    ensures HasContent(InitialFormData().conduta)
  {
    assert DefaultConduta[0] == '-';
  }

  /** `updateFormData(field, value)`: sets one top-level field and leaves
      every other field, top-level or nested, as it was. */
  function UpdateFormData(d: ConsultationFormData, f: TopField, v: FieldValue): (r: ConsultationFormData)
    requires Fits(f, v)
    ensures GetTop(r, f) == v
    ensures forall g: TopField | g != f :: GetTop(r, g) == GetTop(d, g)
    ensures forall k: NestedKey :: GetNested(r, k) == GetNested(d, k)
    ensures r.protocols == d.protocols
  {
    match f
    case ConsultationTypeKey => d.(consultationType := v.t)
    case Hda => d.(hda := v.s)
    case HipoteseDiagnostica => d.(hipoteseDiagnostica := v.s)
    case Conduta => d.(conduta := v.s)
    case ExamesComplementares => d.(examesComplementares := v.s)
    case ReavaliacaoMedica => d.(reavaliacaoMedica := v.s)
    case ComplementoEvolucao => d.(complementoEvolucao := v.s)
  }

  function SetConditional(c: ConditionalField, f: ConditionalSub, value: string): ConditionalField {
    match f
    case Tem => c.(tem := value)
    case Especificar => c.(especificar := value)
  }

  function SetExam(e: ExameFisico, f: ExamSection, value: string): ExameFisico {
    match f
    case EstadoGeral => e.(estadoGeral := value)
    case Respiratorio => e.(respiratorio := value)
    case Cardiovascular => e.(cardiovascular := value)
    case Abdome => e.(abdome := value)
    case Extremidades => e.(extremidades := value)
    case Nervoso => e.(nervoso := value)
    case Orofaringe => e.(orofaringe := value)
    case Otoscopia => e.(otoscopia := value)
  }

  /** `updateNestedFormData(parent, field, value)`: sets one sub-field of one
      parent record; its siblings, the other parents, the top-level fields
      and the protocols are unchanged. */
  function UpdateNestedFormData(d: ConsultationFormData, k: NestedKey, value: string): (r: ConsultationFormData)
    ensures GetNested(r, k) == value
    ensures forall j: NestedKey | j != k :: GetNested(r, j) == GetNested(d, j)
    ensures forall g: TopField :: GetTop(r, g) == GetTop(d, g)
    ensures r.protocols == d.protocols
  {
    match k
    case ConditionalKey(Comorbidades, f) => d.(comorbidades := SetConditional(d.comorbidades, f, value))
    case ConditionalKey(Medicacoes, f) => d.(medicacoes := SetConditional(d.medicacoes, f, value))
    case ConditionalKey(Alergias, f) => d.(alergias := SetConditional(d.alergias, f, value))
    case VitalKey(v) => d.(sinaisVitais := SetVital(d.sinaisVitais, v, value))
    case ExamKey(e) => d.(exameFisico := SetExam(d.exameFisico, e, value))
  }

  /** `updateProtocols(field, value)`: sets one protocol flag; the other
      flags, the adult-sepsis flags and every non-protocol field are unchanged. */
  function UpdateProtocols(d: ConsultationFormData, f: ProtocolFlag, value: bool): (r: ConsultationFormData)
    ensures GetProtocol(r.protocols, f) == value
    ensures forall g: ProtocolFlag | g != f :: GetProtocol(r.protocols, g) == GetProtocol(d.protocols, g)
    ensures r.protocols.sepseAdulto == d.protocols.sepseAdulto
    ensures r == d.(protocols := r.protocols)
  {
    var p := d.protocols;
    var p' := match f
      case SepsePediatrica => p.(sepsePediatrica := value)
      case Avc => p.(avc := value)
      case DorToracica => p.(dorToracica := value)
      case NaoSeAplica => p.(naoSeAplica := value);
    d.(protocols := p')
  }

  /** `updateSepseAdulto(field, value)`: sets one adult-sepsis flag; the other
      two, the other protocols and every non-protocol field are unchanged. */
  function UpdateSepseAdulto(d: ConsultationFormData, f: SepseFlag, value: bool): (r: ConsultationFormData)
    ensures GetSepse(r.protocols.sepseAdulto, f) == value
    ensures forall g: SepseFlag | g != f :: GetSepse(r.protocols.sepseAdulto, g) == GetSepse(d.protocols.sepseAdulto, g)
    ensures forall g: ProtocolFlag :: GetProtocol(r.protocols, g) == GetProtocol(d.protocols, g)
    ensures r == d.(protocols := r.protocols)
  {
    var s := d.protocols.sepseAdulto;
    var s' := match f
      case Sirs => s.(sirs := value)
      case Disfuncao => s.(disfuncao := value)
      case News => s.(news := value);
    d.(protocols := d.protocols.(sepseAdulto := s'))
  }
}
