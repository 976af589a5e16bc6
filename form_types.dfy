/** The records the twelve-step consultation questionnaire works on
    (the form's data model), with a key type and a getter for each group
    of sibling fields so that "only this field changed" can be stated. */
module FormTypes {

  /** The consultation type chosen on step 1; `Unset` is the empty string
      the form starts with. */
  datatype ConsultationType = Unset | Avaliacao | Reavaliacao | Complementacao

  /** The wire value of each consultation type. */
  function TypeValue(t: ConsultationType): string {
    match t
    case Unset => ""
    case Avaliacao => "avaliacao"
    case Reavaliacao => "reavaliacao"
    case Complementacao => "complementacao"
  }

  datatype SepseAdulto = SepseAdulto(sirs: bool, disfuncao: bool, news: bool)

  datatype SepseFlag = Sirs | Disfuncao | News

  function GetSepse(s: SepseAdulto, f: SepseFlag): bool {
    match f
    case Sirs => s.sirs
    case Disfuncao => s.disfuncao
    case News => s.news
  }

  datatype Protocols = Protocols(
    sepseAdulto: SepseAdulto,
    sepsePediatrica: bool,
    avc: bool,
    dorToracica: bool,
    naoSeAplica: bool)

  /** The boolean protocol keys (every key of `Protocols` except `sepseAdulto`). */
  datatype ProtocolFlag = SepsePediatrica | Avc | DorToracica | NaoSeAplica

  function GetProtocol(p: Protocols, f: ProtocolFlag): bool {
    match f
    case SepsePediatrica => p.sepsePediatrica
    case Avc => p.avc
    case DorToracica => p.dorToracica
    case NaoSeAplica => p.naoSeAplica
  }

  /** A yes/no question with free text: `tem` is '', 'sim' or 'nao'. */
  datatype ConditionalField = ConditionalField(tem: string, especificar: string)

  datatype ConditionalSub = Tem | Especificar

  function GetConditional(c: ConditionalField, f: ConditionalSub): string {
    match f
    case Tem => c.tem
    case Especificar => c.especificar
  }

  datatype SinaisVitais = SinaisVitais(
    pa1: string, pa2: string, fc: string, fr: string, hgt: string,
    temperatura: string, alteracaoConsciencia: string, dor: string)

  datatype VitalSign = Pa1 | Pa2 | Fc | Fr | Hgt | Temperatura | AlteracaoConsciencia | Dor

  function GetVital(v: SinaisVitais, f: VitalSign): string {
    match f
    case Pa1 => v.pa1
    case Pa2 => v.pa2
    case Fc => v.fc
    case Fr => v.fr
    case Hgt => v.hgt
    case Temperatura => v.temperatura
    case AlteracaoConsciencia => v.alteracaoConsciencia
    case Dor => v.dor
  }

  function SetVital(v: SinaisVitais, f: VitalSign, value: string): (r: SinaisVitais)
    ensures GetVital(r, f) == value
    ensures forall g: VitalSign | g != f :: GetVital(r, g) == GetVital(v, g)
  {
    match f
    case Pa1 => v.(pa1 := value)
    case Pa2 => v.(pa2 := value)
    case Fc => v.(fc := value)
    case Fr => v.(fr := value)
    case Hgt => v.(hgt := value)
    case Temperatura => v.(temperatura := value)
    case AlteracaoConsciencia => v.(alteracaoConsciencia := value)
    case Dor => v.(dor := value)
  }

  datatype ExameFisico = ExameFisico(
    estadoGeral: string, respiratorio: string, cardiovascular: string, abdome: string,
    extremidades: string, nervoso: string, orofaringe: string, otoscopia: string)

  datatype ExamSection = EstadoGeral | Respiratorio | Cardiovascular | Abdome
                       | Extremidades | Nervoso | Orofaringe | Otoscopia

  function GetExam(e: ExameFisico, f: ExamSection): string {
    match f
    case EstadoGeral => e.estadoGeral
    case Respiratorio => e.respiratorio
    case Cardiovascular => e.cardiovascular
    case Abdome => e.abdome
    case Extremidades => e.extremidades
    case Nervoso => e.nervoso
    case Orofaringe => e.orofaringe
    case Otoscopia => e.otoscopia
  }

  datatype ConsultationFormData = ConsultationFormData(
    consultationType: ConsultationType,
    protocols: Protocols,
    hda: string,
    comorbidades: ConditionalField,
    medicacoes: ConditionalField,
    alergias: ConditionalField,
    sinaisVitais: SinaisVitais,
    exameFisico: ExameFisico,
    hipoteseDiagnostica: string,
    conduta: string,
    examesComplementares: string,
    reavaliacaoMedica: string,
    complementoEvolucao: string)

  /** The top-level keys that hold a single value rather than a nested record. */
  datatype TopField = ConsultationTypeKey | Hda | HipoteseDiagnostica | Conduta
                    | ExamesComplementares | ReavaliacaoMedica | ComplementoEvolucao

  /** A value stored under a top-level key. */
  datatype FieldValue = TypeChoice(t: ConsultationType) | Text(s: string)

  /** The kind of value each top-level key holds. */
  predicate Fits(f: TopField, v: FieldValue) {
    (f == ConsultationTypeKey) == v.TypeChoice?
  }

  function GetTop(d: ConsultationFormData, f: TopField): (v: FieldValue)
    ensures Fits(f, v)
  {
    match f
    case ConsultationTypeKey => TypeChoice(d.consultationType)
    case Hda => Text(d.hda)
    case HipoteseDiagnostica => Text(d.hipoteseDiagnostica)
    case Conduta => Text(d.conduta)
    case ExamesComplementares => Text(d.examesComplementares)
    case ReavaliacaoMedica => Text(d.reavaliacaoMedica)
    case ComplementoEvolucao => Text(d.complementoEvolucao)
  }

  /** The parent records that `updateNestedFormData` reaches into. */
  datatype NestedKey =
    | ConditionalKey(parent: ConditionalParent, sub: ConditionalSub)
    | VitalKey(vital: VitalSign)
    | ExamKey(section: ExamSection)

  datatype ConditionalParent = Comorbidades | Medicacoes | Alergias

  function GetParent(d: ConsultationFormData, p: ConditionalParent): ConditionalField {
    match p
    case Comorbidades => d.comorbidades
    case Medicacoes => d.medicacoes
    case Alergias => d.alergias
  }

  function GetNested(d: ConsultationFormData, k: NestedKey): string {
    match k
    case ConditionalKey(p, f) => GetConditional(GetParent(d, p), f)
    case VitalKey(v) => GetVital(d.sinaisVitais, v)
    case ExamKey(e) => GetExam(d.exameFisico, e)
  }
}
