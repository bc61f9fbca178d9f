/** The data model shared by the API routes and the screens (src/lib/types.ts). */
module Types {
  import opened Wrappers

  /** A learning-style preference; `Mixed` means undetermined or blended. */
  datatype Modality = Visual | Auditory | Reading | Kinesthetic | Mixed

  /** The four concrete styles: every modality except `Mixed`. They key the
      adaptation catalog and the buckets of a group profile. */
  type Style = m: Modality | m != Mixed witness Visual

  /** The style keys in the order the source's object literals list them. */
  const Styles: seq<Style> := [Visual, Auditory, Reading, Kinesthetic]

  /** The wire spelling of a modality. */
  function ModalityName(m: Modality): string {
    match m
    case Visual => "visual"
    case Auditory => "auditory"
    case Reading => "reading"
    case Kinesthetic => "kinesthetic"
    case Mixed => "mixed"
  }

  /** Reads a wire spelling back; `None` for any string that names no modality. */
  function ParseModality(s: string): (r: Option<Modality>)
    ensures r.Some? ==> ModalityName(r.value) == s
    ensures r.None? ==> forall m: Modality :: ModalityName(m) != s
  {
    if s == "visual" then Some(Visual)
    else if s == "auditory" then Some(Auditory)
    else if s == "reading" then Some(Reading)
    else if s == "kinesthetic" then Some(Kinesthetic)
    else if s == "mixed" then Some(Mixed)
    else None
  }

  /** `mixed` stands for `reading` wherever a concrete style is needed. */
  function FoldMixed(name: string): string {
    if name == "mixed" then "reading" else name
  }

  /** The style a key names, as a lookup in an object keyed by the four
      style spellings finds it: `mixed` and every other string find none. */
  function StyleNamed(name: string): (r: Option<Style>)
    ensures r.Some? ==> ModalityName(r.value) == name
    ensures r.None? ==> forall s: Style :: ModalityName(s) != name
  {
    if name == "visual" then Some(Visual)
    else if name == "auditory" then Some(Auditory)
    else if name == "reading" then Some(Reading)
    else if name == "kinesthetic" then Some(Kinesthetic)
    else None
  }

  /** Exactly five modalities, with five distinct spellings, of which only
      `mixed` is not a style. */
  lemma ModalityIsClosed()
    ensures forall m: Modality :: m in [Visual, Auditory, Reading, Kinesthetic, Mixed]
    ensures forall a: Modality, b: Modality :: ModalityName(a) == ModalityName(b) ==> a == b
    ensures forall s: Style :: s in Styles
    ensures |Styles| == 4 && Mixed !in Styles
  {
    forall m: Modality ensures m in [Visual, Auditory, Reading, Kinesthetic, Mixed] {
      match m
      case Visual =>
      case Auditory =>
      case Reading =>
      case Kinesthetic =>
      case Mixed =>
    }
  }

  /** An insight's proficiency level. */
  datatype Level = Basico | Intermedio | Avanzado

  function LevelName(l: Level): string {
    match l
    case Basico => "basico"
    case Intermedio => "intermedio"
    case Avanzado => "avanzado"
  }

  function ParseLevel(s: string): (r: Option<Level>)
    ensures r.Some? ==> LevelName(r.value) == s
    ensures r.None? ==> forall l: Level :: LevelName(l) != s
  {
    if s == "basico" then Some(Basico)
    else if s == "intermedio" then Some(Intermedio)
    else if s == "avanzado" then Some(Avanzado)
    else None
  }

  /** Critical-thinking estimates, documented as 0..100 each. */
  datatype Metrics = Metrics(analisis: int, reflexion: int, sintesis: int)

  ghost predicate MetricsInRange(m: Metrics) {
    0 <= m.analisis <= 100 && 0 <= m.reflexion <= 100 && 0 <= m.sintesis <= 100
  }

  /** A stored chat insight. `modality` and `level` hold whatever string the
      submitter sent (the intake route does not validate them), or nothing;
      `createdAt` is an abstract timestamp that orders insights in time. */
  datatype Insight = Insight(
    id: string,
    classId: string,
    studentId: string,
    createdAt: nat,
    modality: Option<string>,
    level: Option<string>,
    strengths: seq<string>,
    needs: seq<string>,
    recentTopic: Option<string>,
    metrics: Option<Metrics>)

  /** The shape the type declaration promises: a known modality and level
      and, when present, metrics within 0..100. */
  ghost predicate WellTyped(i: Insight) {
    && i.modality.Some? && ParseModality(i.modality.value).Some?
    && i.level.Some? && ParseLevel(i.level.value).Some?
    && (i.metrics.Some? ==> MetricsInRange(i.metrics.value))
  }

  /** A class member as the roster provider lists it. */
  datatype RosterEntry = RosterEntry(studentId: string, nombre: string, classId: string)

  /** One step of an activity. */
  datatype Step = Step(titulo: string, descripcion: string)

  /** Per-style tallies of a group profile: four buckets, none for `mixed`. */
  datatype Counts = Counts(visual: nat, auditory: nat, reading: nat, kinesthetic: nat) {

    function Get(s: Style): nat {
      match s
      case Visual => visual
      case Auditory => auditory
      case Reading => reading
      case Kinesthetic => kinesthetic
    }

    function Sum(): nat {
      visual + auditory + reading + kinesthetic
    }
  }

  /** A class's learning-style profile; `dominant` may be `Mixed`. */
  datatype GroupProfile = GroupProfile(total: nat, counts: Counts, dominant: Modality)

  /** The class-wide activity skeleton. */
  datatype ActivityBase = ActivityBase(objetivo: string, pasos: seq<Step>)

  /** Suggested activities and resources for one style. */
  datatype PlanByModality = PlanByModality(actividades: seq<string>, recursos: seq<string>)

  /** One student's personalised plan; `modalidad` and `nivel` echo the raw
      values of the insight it was derived from. */
  datatype StudentPlan = StudentPlan(
    studentId: string,
    nombre: string,
    modalidad: string,
    nivel: string,
    objetivos: seq<string>,
    pasos: seq<Step>,
    recursos: seq<string>)
}
