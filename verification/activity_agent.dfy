/** The activity personalisation engine (src/pages/api/activity-agent.ts):
    a class-wide base activity, the per-style catalog entries, one
    personalised plan per roster entry, and per-style insight counts. */
module ActivityAgent {
  import opened Wrappers
  import opened Types
  import opened Http
  import Lists
  import InsightStore
  import StyleTally

  // ---------------------------------------------------------------------
  // Static catalog and base activity

  /** The default activities and resources of each style. */
  function Catalog(s: Style): (p: PlanByModality)
    ensures |p.actividades| == 3 && |p.recursos| == 3
  {
    match s
    case Visual => PlanByModality(
      ["Mapa conceptual de causas/efectos", "Análisis de 2 infografías", "Línea de tiempo visual"],
      ["Diagramas de flujo", "Gráficos", "Videos cortos"])
    case Auditory => PlanByModality(
      ["Debate estructurado", "Podcast + resumen oral", "Pitch de 2 minutos"],
      ["Podcasts", "Grabaciones", "Rúbrica de debate"])
    case Reading => PlanByModality(
      ["Ensayo breve (3 evidencias)", "Fichas de 2 artículos (APA)", "Glosario de conceptos"],
      ["Artículos", "Reportes", "Guía de citas"])
    case Kinesthetic => PlanByModality(
      ["Experimento/medición local", "Plan de intervención", "Role-play de decisiones"],
      ["Kits/Materiales", "Plantillas de proyecto", "Checklists"])
  }

  /** The three-step skeleton every base activity has. */
  const BaseSteps: seq<Step> := [
    Step("Formular tesis", "Define una postura clara y delimitada."),
    Step("Evidencias", "Selecciona 3 evidencias confiables con cita."),
    Step("Contraargumento", "Anticipa objeciones y respóndelas.")]

  const DefaultObjectivePrefix := "Desarrollar pensamiento crítico sobre "

  /** The class-wide base activity: the teacher's objective when one was
      given, otherwise a generic one naming the topic; always the skeleton. */
  function BuildBase(topic: string, objective: string): (b: ActivityBase)
    ensures b.objetivo != ""
    ensures objective != "" ==> b.objetivo == objective
    ensures objective == "" ==> b.objetivo == DefaultObjectivePrefix + topic
    ensures b.pasos == BaseSteps && |b.pasos| == 3
  {
    ActivityBase(if objective != "" then objective else DefaultObjectivePrefix + topic, BaseSteps)
  }

  /** The topic can be read back from a generic objective: the part after
      the fixed prefix is the topic, so different topics give different
      objectives. */
  lemma GenericObjectiveNamesTopic(t1: string, t2: string)
    ensures BuildBase(t1, "").objetivo[|DefaultObjectivePrefix|..] == t1
    ensures BuildBase(t1, "").objetivo == BuildBase(t2, "").objetivo <==> t1 == t2
  {
    var o1, o2 := BuildBase(t1, "").objetivo, BuildBase(t2, "").objetivo;
    assert o1[|DefaultObjectivePrefix|..] == t1;
    assert o2[|DefaultObjectivePrefix|..] == t2;
  }

  // ---------------------------------------------------------------------
  // Per-student personalisation

  /** What the personaliser reads from an insight. */
  datatype Signal = Signal(
    modality: Option<string>,
    level: Option<string>,
    needs: seq<string>,
    metrics: Option<Metrics>)

  function SignalOf(i: Insight): Signal {
    Signal(i.modality, i.level, i.needs, i.metrics)
  }

  /** The signal assumed for a student with no insight on record. */
  const DefaultSeed := Signal(Some("reading"), Some("intermedio"), ["síntesis"],
                              Some(Metrics(70, 70, 60)))

  /** A metric strictly below this adds a remediation objective. */
  const Threshold := 70

  const ObjSynthesisNeed := "Mejorar la síntesis de información"
  const ObjCounterNeed := "Fortalecer el manejo de contraargumentos"
  const ObjAnalysis := "Profundizar en análisis de causas/efectos"
  const ObjReflection := "Elevar reflexión metacognitiva"
  const ObjSynthesisMetric := "Mejorar síntesis"
  const ObjFallback := "Consolidar argumento con evidencias"

  /** Every objective the rules can add, in the order they add them. */
  const ObjectiveOrder := [ObjSynthesisNeed, ObjCounterNeed, ObjAnalysis, ObjReflection,
                           ObjSynthesisMetric]

  const StepSynthesis := Step("Esquema 10-20-30", "Reduce a 10 ideas, 20 palabras, 30 segundos.")
  const StepCounter := Step("Tabla Objeción-Respuesta-Evidencia", "Completa O-R-E con fuentes.")
  const StepBasic := Step("Andamiaje básico", "Plantilla Causa–Evidencia–Conclusión.")
  const StepAdvanced := Step("Indicadores", "Define 2 KPIs para evaluar tu propuesta.")

  /** The closing step that ties the plan to the topic. */
  function ContextStep(topic: string): Step {
    Step("Aplicación al contexto: " + topic, "Conecta con un caso local.")
  }

  /** Every step the rules can add, in the order they add them. */
  function StepOrder(topic: string): seq<Step> {
    [StepSynthesis, StepCounter, StepBasic, StepAdvanced, ContextStep(topic)]
  }

  predicate NeedsSynthesis(sig: Signal) {
    "síntesis" in sig.needs || "sintesis" in sig.needs
  }

  predicate NeedsCounter(sig: Signal) {
    "contraargumentos" in sig.needs
  }

  predicate Below(sig: Signal, pick: Metrics -> int) {
    sig.metrics.Some? && pick(sig.metrics.value) < Threshold
  }

  /** The catalog entry whose resources a signal receives: `mixed`, an empty
      or an absent modality read as `reading`; a string naming no style has
      no entry, and the lookup fails. */
  function ResourceStyle(modality: Option<string>): (r: Option<Style>)
    ensures modality.None? || modality == Some("") || modality == Some("mixed")
            ==> r == Some(Reading)
    ensures forall s: Style :: modality == Some(ModalityName(s)) ==> r == Some(s)
    ensures r.None? <==> modality.Some? && modality.value != "" && ParseModality(modality.value).None?
  {
    StyleNamed(if modality.None? || modality.value == "" then "reading" else FoldMixed(modality.value))
  }

  /** A personalisation before the roster-level fallbacks are applied. */
  datatype Personalized = Personalized(
    objetivos: seq<string>,
    pasos: seq<Step>,
    recursos: seq<string>,
    modalidad: string,
    nivel: string)

  /** The objectives the rules add: one per need asked for and one per
      metric strictly below the threshold. */
  function Objectives(sig: Signal): (r: seq<string>)
    ensures ObjSynthesisNeed in r <==> NeedsSynthesis(sig)
    ensures ObjCounterNeed in r <==> NeedsCounter(sig)
    ensures ObjAnalysis in r <==> Below(sig, (m: Metrics) => m.analisis)
    ensures ObjReflection in r <==> Below(sig, (m: Metrics) => m.reflexion)
    ensures ObjSynthesisMetric in r <==> Below(sig, (m: Metrics) => m.sintesis)
  {
    Lists.When(NeedsSynthesis(sig), ObjSynthesisNeed)
      + Lists.When(NeedsCounter(sig), ObjCounterNeed)
      + Lists.When(Below(sig, (m: Metrics) => m.analisis), ObjAnalysis)
      + Lists.When(Below(sig, (m: Metrics) => m.reflexion), ObjReflection)
      + Lists.When(Below(sig, (m: Metrics) => m.sintesis), ObjSynthesisMetric)
  }

  /** Objectives are only ever appended, in the fixed rule order, each at
      most once. */
  lemma ObjectivesFollowOrder(sig: Signal)
    ensures Lists.IsSubsequence(Objectives(sig), ObjectiveOrder)
  {
    var a := Lists.When(NeedsSynthesis(sig), ObjSynthesisNeed);
    var b := Lists.When(NeedsCounter(sig), ObjCounterNeed);
    var c := Lists.When(Below(sig, (m: Metrics) => m.analisis), ObjAnalysis);
    var d := Lists.When(Below(sig, (m: Metrics) => m.reflexion), ObjReflection);
    var e := Lists.When(Below(sig, (m: Metrics) => m.sintesis), ObjSynthesisMetric);
    var (o1, o2, o3, o4, o5) := ([ObjSynthesisNeed], [ObjCounterNeed], [ObjAnalysis],
                                 [ObjReflection], [ObjSynthesisMetric]);
    Lists.SubsequenceConcat(a, o1, b, o2);
    Lists.SubsequenceConcat(a + b, o1 + o2, c, o3);
    Lists.SubsequenceConcat(a + b + c, o1 + o2 + o3, d, o4);
    Lists.SubsequenceConcat(a + b + c + d, o1 + o2 + o3 + o4, e, o5);
    assert o1 + o2 + o3 + o4 + o5 == ObjectiveOrder;
    assert Objectives(sig) == a + b + c + d + e;
  }

  /** The steps the rules add: one per need, one for a basic or advanced
      level (an absent level reads as `intermedio`, which adds none), and the
      context step last. */
  function Steps(sig: Signal, topic: string): (r: seq<Step>)
    ensures |r| >= 1 && r[|r| - 1] == ContextStep(topic)
    ensures StepSynthesis in r <==> NeedsSynthesis(sig)
    ensures StepCounter in r <==> NeedsCounter(sig)
    ensures StepBasic in r <==> sig.level == Some("basico")
    ensures StepAdvanced in r <==> sig.level == Some("avanzado")
  {
    var nivel := sig.level.GetOr("intermedio");
    StepsDistinct(topic);
    Lists.When(NeedsSynthesis(sig), StepSynthesis)
      + Lists.When(NeedsCounter(sig), StepCounter)
      + Lists.When(nivel == "basico", StepBasic)
      + Lists.When(nivel == "avanzado", StepAdvanced)
      + [ContextStep(topic)]
  }

  /** The steps always appear in the fixed order synthesis, counter-argument,
      basic, advanced, context, each at most once. */
  lemma StepsFollowOrder(sig: Signal, topic: string)
    ensures Lists.IsSubsequence(Steps(sig, topic), StepOrder(topic))
  {
    var nivel := sig.level.GetOr("intermedio");
    var a := Lists.When(NeedsSynthesis(sig), StepSynthesis);
    var b := Lists.When(NeedsCounter(sig), StepCounter);
    var c := Lists.When(nivel == "basico", StepBasic);
    var d := Lists.When(nivel == "avanzado", StepAdvanced);
    var e := [ContextStep(topic)];
    var (s1, s2, s3, s4) := ([StepSynthesis], [StepCounter], [StepBasic], [StepAdvanced]);
    Lists.SubsequenceReflexive(e);
    Lists.SubsequenceConcat(a, s1, b, s2);
    Lists.SubsequenceConcat(a + b, s1 + s2, c, s3);
    Lists.SubsequenceConcat(a + b + c, s1 + s2 + s3, d, s4);
    Lists.SubsequenceConcat(a + b + c + d, s1 + s2 + s3 + s4, e, e);
    assert s1 + s2 + s3 + s4 + e == StepOrder(topic);
    assert Steps(sig, topic) == a + b + c + d + e;
  }

  /** The five steps the rules can add are pairwise different. */
  lemma StepsDistinct(topic: string)
    ensures StepSynthesis != StepCounter && StepSynthesis != StepBasic && StepSynthesis != StepAdvanced
    ensures StepCounter != StepBasic && StepCounter != StepAdvanced && StepBasic != StepAdvanced
    ensures ContextStep(topic) !in [StepSynthesis, StepCounter, StepBasic, StepAdvanced]
  {
    var c := ContextStep(topic).descripcion;
    assert c[2] == 'n' && |c| == 26;
    assert StepSynthesis.descripcion[0] == 'R' && StepCounter.descripcion[2] == 'm';
    assert StepBasic.descripcion[0] == 'P' && StepAdvanced.descripcion[0] == 'D';
  }

  /** Derives objectives, steps and resources from one signal. Fails exactly
      when the signal's modality names no catalog entry. */
  function Personalize(sig: Signal, topic: string): (r: Result<Personalized, string>)
    ensures r.Failure? <==> ResourceStyle(sig.modality).None?
    ensures r.Success? ==> && r.value.objetivos == Objectives(sig)
                           && r.value.pasos == Steps(sig, topic)
                           && r.value.recursos == Catalog(ResourceStyle(sig.modality).value).recursos
                           && r.value.modalidad == sig.modality.GetOr("mixed")
                           && r.value.nivel == sig.level.GetOr("intermedio")
  {
    match ResourceStyle(sig.modality)
    case None => Failure("DEFAULT_BY_MODALITY has no entry for this modality")
    case Some(style) =>
      Success(Personalized(Objectives(sig), Steps(sig, topic), Catalog(style).recursos,
                           sig.modality.GetOr("mixed"), sig.level.GetOr("intermedio")))
  }

  /** The signal a roster entry is personalised from: its latest insight in
      the class, or the default seed. */
  function SeedFor(entry: RosterEntry, insights: seq<Insight>): Signal {
    match InsightStore.Latest(insights, entry.studentId)
    case Some(i) => SignalOf(i)
    case None => DefaultSeed
  }

  /** One roster entry's plan, with the fallbacks for an empty objective or
      step list applied. */
  function PlanFor(entry: RosterEntry, insights: seq<Insight>, topic: string, base: ActivityBase)
    : (r: Result<StudentPlan, string>)
    ensures r.Failure? <==> ResourceStyle(SeedFor(entry, insights).modality).None?
    ensures r.Success? ==>
      var seed := SeedFor(entry, insights);
      && r.value.studentId == entry.studentId
      && r.value.nombre == entry.nombre
      && r.value.modalidad == seed.modality.GetOr("mixed")
      && r.value.nivel == seed.level.GetOr("intermedio")
      && r.value.objetivos == (if Objectives(seed) == [] then [ObjFallback] else Objectives(seed))
      && r.value.pasos == Steps(seed, topic)
      && r.value.pasos[|r.value.pasos| - 1] == ContextStep(topic)
      && r.value.recursos == Catalog(ResourceStyle(seed.modality).value).recursos
  {
    var p :- Personalize(SeedFor(entry, insights), topic);
    var objetivos := if |p.objetivos| > 0 then p.objetivos else [ObjFallback];
    var pasos := if |p.pasos| > 0 then p.pasos else base.pasos;
    Success(StudentPlan(entry.studentId, entry.nombre, p.modalidad, p.nivel, objetivos, pasos,
                        p.recursos))
  }

  /** A student with no insight gets the plan of the default seed: the
      synthesis need and the synthesis metric below threshold, the synthesis
      step, reading resources, at level `intermedio`. */
  lemma DefaultSeedPlan(entry: RosterEntry, insights: seq<Insight>, topic: string, base: ActivityBase)
    requires forall i :: i in insights ==> i.studentId != entry.studentId
    ensures PlanFor(entry, insights, topic, base) == Success(StudentPlan(
      entry.studentId, entry.nombre, "reading", "intermedio",
      [ObjSynthesisNeed, ObjSynthesisMetric],
      [StepSynthesis, ContextStep(topic)],
      ["Artículos", "Reportes", "Guía de citas"]))
  {
    assert SeedFor(entry, insights) == DefaultSeed;
    DefaultSeedObjectives();
    DefaultSeedSteps(topic);
    assert ResourceStyle(DefaultSeed.modality) == Some(Reading);
  }

  lemma DefaultSeedObjectives()
    ensures Objectives(DefaultSeed) == [ObjSynthesisNeed, ObjSynthesisMetric]
  {
    var sig := DefaultSeed;
    assert NeedsSynthesis(sig) && !NeedsCounter(sig);
    assert Lists.When(NeedsSynthesis(sig), ObjSynthesisNeed) == [ObjSynthesisNeed];
    assert Lists.When(NeedsCounter(sig), ObjCounterNeed) == [];
    assert Lists.When(Below(sig, (m: Metrics) => m.analisis), ObjAnalysis) == [];
    assert Lists.When(Below(sig, (m: Metrics) => m.reflexion), ObjReflection) == [];
    assert Lists.When(Below(sig, (m: Metrics) => m.sintesis), ObjSynthesisMetric) == [ObjSynthesisMetric];
  }

  lemma DefaultSeedSteps(topic: string)
    ensures Steps(DefaultSeed, topic) == [StepSynthesis, ContextStep(topic)]
  {
    var sig := DefaultSeed;
    assert NeedsSynthesis(sig) && !NeedsCounter(sig);
    assert Lists.When(NeedsSynthesis(sig), StepSynthesis) == [StepSynthesis];
    assert Lists.When(NeedsCounter(sig), StepCounter) == [];
  }

  /** A reading student at level `intermedio` who asked for both synthesis
      and counter-arguments and is low on analysis and synthesis. */
  const TwoNeedsSignal := Signal(Some("reading"), Some("intermedio"), ["síntesis", "contraargumentos"],
                                 Some(Metrics(50, 80, 40)))

  lemma TwoNeedsObjectives()
    ensures Objectives(TwoNeedsSignal) == [ObjSynthesisNeed, ObjCounterNeed, ObjAnalysis, ObjSynthesisMetric]
  {
    var sig := TwoNeedsSignal;
    assert NeedsSynthesis(sig) && NeedsCounter(sig);
    assert Lists.When(NeedsSynthesis(sig), ObjSynthesisNeed) == [ObjSynthesisNeed];
    assert Lists.When(NeedsCounter(sig), ObjCounterNeed) == [ObjCounterNeed];
    assert Lists.When(Below(sig, (m: Metrics) => m.analisis), ObjAnalysis) == [ObjAnalysis];
    assert Lists.When(Below(sig, (m: Metrics) => m.reflexion), ObjReflection) == [];
    assert Lists.When(Below(sig, (m: Metrics) => m.sintesis), ObjSynthesisMetric) == [ObjSynthesisMetric];
  }

  lemma TwoNeedsSteps(topic: string)
    ensures Steps(TwoNeedsSignal, topic) == [StepSynthesis, StepCounter, ContextStep(topic)]
  {
    var sig := TwoNeedsSignal;
    assert NeedsSynthesis(sig) && NeedsCounter(sig);
    assert Lists.When(NeedsSynthesis(sig), StepSynthesis) == [StepSynthesis];
    assert Lists.When(NeedsCounter(sig), StepCounter) == [StepCounter];
  }

  /** Rules add up: both needs and two low metrics give four objectives, and
      at level `intermedio` the two need steps come before the context step. */
  lemma TwoNeedsTwoLowMetrics(topic: string)
    ensures && Objectives(TwoNeedsSignal) == [ObjSynthesisNeed, ObjCounterNeed, ObjAnalysis, ObjSynthesisMetric]
            && Steps(TwoNeedsSignal, topic) == [StepSynthesis, StepCounter, ContextStep(topic)]
  {
    TwoNeedsObjectives();
    TwoNeedsSteps(topic);
  }

  // ---------------------------------------------------------------------
  // Roster-wide results

  /** One plan per roster entry, in roster order; the first entry whose
      plan cannot be built aborts the whole list. */
  function PlansFor(roster: seq<RosterEntry>, insights: seq<Insight>, topic: string, base: ActivityBase)
    : (r: Result<seq<StudentPlan>, string>)
    ensures r.Success? <==> forall k :: 0 <= k < |roster| ==> PlanFor(roster[k], insights, topic, base).Success?
    ensures r.Success? ==> && |r.value| == |roster|
                           && forall k :: 0 <= k < |roster| ==>
                                r.value[k] == PlanFor(roster[k], insights, topic, base).value
  {
    MapAll(roster, (e: RosterEntry) => PlanFor(e, insights, topic, base))
  }


  /** `adaptaciones`: the whole catalog for `mixed`, otherwise the single
      requested entry. */
  function Adaptations(perfil: Modality): (r: map<Style, PlanByModality>)
    ensures perfil == Mixed ==> r.Keys == {Visual, Auditory, Reading, Kinesthetic}
    ensures perfil != Mixed ==> r.Keys == {perfil}
    ensures forall s :: s in r ==> r[s] == Catalog(s)
  {
    if perfil == Mixed then
      map[Visual := Catalog(Visual), Auditory := Catalog(Auditory),
          Reading := Catalog(Reading), Kinesthetic := Catalog(Kinesthetic)]
    else
      map[perfil := Catalog(perfil)]
  }

  // ---------------------------------------------------------------------
  // The route

  datatype AgentBody = AgentBody(
    idClase: Option<string>,
    titulo: Option<string>,
    objetivo: Option<string>,
    perfilAprendizaje: Option<Modality>)

  /** What a missing body reads as (`req.body || {}`). */
  const EmptyBody := AgentBody(None, None, None, None)

  datatype AgentRequest = AgentRequest(verb: Method, body: Option<AgentBody>)

  datatype Stats = Stats(estudiantes: nat, planesCreados: nat)

  datatype AgentResponse = AgentResponse(
    activityId: string,
    stats: Stats,
    porEstilo: map<string, nat>,
    base: ActivityBase,
    adaptaciones: map<Style, PlanByModality>,
    porEstudiante: seq<StudentPlan>)

  datatype AgentReply =
    | Generated(response: AgentResponse)  // 200
    | BadRequest(message: string)          // 400
    | MethodNotAllowed                     // 405
    | ServerError(message: string)         // 500: an exception escaped the handler

  /** Every roster entry's seed names a catalog entry, so no plan fails. */
  predicate SeedsKnown(roster: seq<RosterEntry>, insights: seq<Insight>) {
    forall k :: 0 <= k < |roster| ==> ResourceStyle(SeedFor(roster[k], insights).modality).Some?
  }

  /** The roster's plans are built exactly when every seed names a catalog
      entry. */
  lemma PlansSucceedIffSeedsKnown(roster: seq<RosterEntry>, insights: seq<Insight>, topic: string,
                                  base: ActivityBase)
    ensures PlansFor(roster, insights, topic, base).Success? <==> SeedsKnown(roster, insights)
  {
    forall k | 0 <= k < |roster|
      ensures PlanFor(roster[k], insights, topic, base).Success?
              <==> ResourceStyle(SeedFor(roster[k], insights).modality).Some?
    {
    }
  }

  /** The plans follow the roster: one per entry, in roster order, each
      naming its entry's student. */
  lemma PlansFollowRoster(roster: seq<RosterEntry>, insights: seq<Insight>, topic: string,
                          base: ActivityBase)
    ensures PlansFor(roster, insights, topic, base).Success? ==>
      var plans := PlansFor(roster, insights, topic, base).value;
      && |plans| == |roster|
      && forall k :: 0 <= k < |roster| ==>
           plans[k].studentId == roster[k].studentId && plans[k].nombre == roster[k].nombre
  {
    var r := PlansFor(roster, insights, topic, base);
    if r.Success? {
      PlanNamesMatch(roster, r.value, insights, topic, base);
    }
  }

  lemma PlanNamesMatch(roster: seq<RosterEntry>, plans: seq<StudentPlan>, insights: seq<Insight>,
                       topic: string, base: ActivityBase)
    requires PlansFor(roster, insights, topic, base) == Success(plans)
    ensures |plans| == |roster|
    ensures forall k :: 0 <= k < |roster| ==>
              plans[k].studentId == roster[k].studentId && plans[k].nombre == roster[k].nombre
  {
    forall k | 0 <= k < |roster|
      ensures plans[k].studentId == roster[k].studentId && plans[k].nombre == roster[k].nombre
    {
      assert plans[k] == PlanFor(roster[k], insights, topic, base).value;
    }
  }

  /** The reply to a well-formed request for class `idClase`, whose
      insights are `insights` and whose roster is `roster`. */
  function Respond(b: AgentBody, idClase: string, insights: seq<Insight>, roster: seq<RosterEntry>,
                   now: string): (r: AgentReply)
    ensures r.ServerError? || r.Generated?
    ensures r.ServerError? <==> !SeedsKnown(roster, insights)
    ensures r.Generated? ==>
      var resp := r.response;
      && resp.activityId == "act-" + idClase + "-" + now
      && resp.stats.estudiantes == |roster|
      && resp.stats.planesCreados == |roster|
      && resp.base == BuildBase(b.titulo.GetOr("Actividad"), b.objetivo.GetOr(""))
      && resp.adaptaciones == Adaptations(b.perfilAprendizaje.GetOr(Mixed))
      && resp.porEstilo == StyleTally.PerStyle(insights)
      && resp.porEstudiante == PlansFor(roster, insights, b.titulo.GetOr("tema"), resp.base).value
  {
    var base := BuildBase(b.titulo.GetOr("Actividad"), b.objetivo.GetOr(""));
    var adaptaciones := Adaptations(b.perfilAprendizaje.GetOr(Mixed));
    PlansSucceedIffSeedsKnown(roster, insights, b.titulo.GetOr("tema"), base);
    match PlansFor(roster, insights, b.titulo.GetOr("tema"), base)
    case Failure(e) => ServerError(e)
    case Success(plans) =>
      Generated(AgentResponse("act-" + idClase + "-" + now,
                              Stats(|roster|, |plans|),
                              StyleTally.PerStyle(insights), base, adaptaciones, plans))
  }

  /** Serves one request. `store` holds every insight, `rosterOf` is the
      roster provider and `now` the clock reading the activity id embeds. */
  function Handle(req: AgentRequest, store: InsightStore.Store,
                  rosterOf: string -> seq<RosterEntry>, now: string): (r: AgentReply)
    ensures req.verb != Post ==> r == MethodNotAllowed
    ensures req.verb == Post && !Truthy(req.body.GetOr(EmptyBody).idClase)
            ==> r == BadRequest("Falta id_clase")
    ensures req.verb == Post && Truthy(req.body.GetOr(EmptyBody).idClase)
            ==> var b := req.body.GetOr(EmptyBody);
                var roster := rosterOf(b.idClase.value);
                var insights := InsightStore.ByClass(store, b.idClase.value);
                && (r.ServerError? || r.Generated?)
                && (r.ServerError? <==> !SeedsKnown(roster, insights))
                && (r.Generated? ==>
                       var resp := r.response;
                       && resp.activityId == "act-" + b.idClase.value + "-" + now
                       && resp.stats.estudiantes == |roster|
                       && resp.stats.planesCreados == |roster|
                       && |resp.porEstudiante| == |roster|
                       && (forall k :: 0 <= k < |roster| ==>
                             && resp.porEstudiante[k].studentId == roster[k].studentId
                             && resp.porEstudiante[k].nombre == roster[k].nombre)
                       && resp.base == BuildBase(b.titulo.GetOr("Actividad"), b.objetivo.GetOr(""))
                       && resp.adaptaciones == Adaptations(b.perfilAprendizaje.GetOr(Mixed))
                       && resp.porEstilo == StyleTally.PerStyle(insights)
                       && resp.porEstudiante
                          == PlansFor(roster, insights, b.titulo.GetOr("tema"), resp.base).value)
  {
    if req.verb != Post then MethodNotAllowed
    else
      var b := req.body.GetOr(EmptyBody);
      if !Truthy(b.idClase) then BadRequest("Falta id_clase")
      else
        var idClase := b.idClase.value;
        var insights := InsightStore.ByClass(store, idClase);
        PlansFollowRoster(rosterOf(idClase), insights, b.titulo.GetOr("tema"),
                          BuildBase(b.titulo.GetOr("Actividad"), b.objetivo.GetOr("")));
        Respond(b, idClase, insights, rosterOf(idClase), now)
  }

  /** A class with an empty roster gets no plans, and that is not an error. */
  lemma EmptyRoster(req: AgentRequest, store: InsightStore.Store,
                    rosterOf: string -> seq<RosterEntry>, now: string)
    requires req.verb == Post && Truthy(req.body.GetOr(EmptyBody).idClase)
    requires rosterOf(req.body.GetOr(EmptyBody).idClase.value) == []
    ensures Handle(req, store, rosterOf, now).Generated?
    ensures Handle(req, store, rosterOf, now).response.porEstudiante == []
    ensures Handle(req, store, rosterOf, now).response.stats == Stats(0, 0)
  {
  }
}
