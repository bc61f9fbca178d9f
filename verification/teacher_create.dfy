/** The pure decisions of the activity-creation screen
    (src/components/teacher-create.tsx): which modality tabs are shown, how
    server adaptations are merged with the built-in ones, what the generate
    button sends, and the fallbacks of the base activity shown afterwards. */
module TeacherCreate {
  import opened Wrappers
  import opened Types
  import ActivityAgent

  // ---------------------------------------------------------------------
  // Tabs and requested styles

  /** The tabs shown for a learning profile: all four styles for `mixed`,
      otherwise the profile's own. */
  function TabsToShow(profile: Modality): (r: seq<Style>)
    ensures profile == Mixed ==> r == Styles
    ensures profile != Mixed ==> r == [profile]
  {
    if profile == Mixed then Styles else [profile]
  }

  /** The `learningStyles` of a generate request, by the same rule. */
  function LearningStyles(profile: Modality): (r: seq<string>)
    ensures |r| == |TabsToShow(profile)|
    ensures forall k :: 0 <= k < |r| ==> r[k] == ModalityName(TabsToShow(profile)[k])
  {
    if profile == Mixed then ["visual", "auditory", "reading", "kinesthetic"]
    else [ModalityName(profile)]
  }

  /** The tabs are pairwise distinct, never `mixed`, and are exactly the
      styles the activity agent returns adaptations for. */
  lemma TabsMatchAgent(profile: Modality)
    ensures forall a, b :: 0 <= a < b < |TabsToShow(profile)| ==> TabsToShow(profile)[a] != TabsToShow(profile)[b]
    ensures forall s: Style :: s in TabsToShow(profile) <==> s in ActivityAgent.Adaptations(profile)
    ensures |TabsToShow(profile)| == |ActivityAgent.Adaptations(profile).Keys|
  {
    var keys := ActivityAgent.Adaptations(profile).Keys;
    if profile == Mixed {
      assert keys == {Visual, Auditory, Reading, Kinesthetic};
      assert |{Visual, Auditory, Reading, Kinesthetic}| == 4;
    } else {
      assert keys == {profile};
    }
  }

  // ---------------------------------------------------------------------
  // Built-in adaptations and the merge with the server's

  datatype Adaptation = Adaptation(
    kind: Style,
    title: string,
    description: string,
    activities: seq<string>,
    resources: seq<string>)

  /** The adaptation shown for a style when the server sends none. */
  function DefaultAdaptation(s: Style): (a: Adaptation)
    ensures a.kind == s
    ensures |a.activities| == 3 && |a.resources| == 3
  {
    Adaptation(s, DefaultTitle(s), DefaultDescription(s), DefaultActivities(s), DefaultResources(s))
  }

  function DefaultTitle(s: Style): string {
    match s
    case Visual => "Adaptación Visual"
    case Auditory => "Adaptación Auditiva"
    case Reading => "Lectura/Escritura"
    case Kinesthetic => "Adaptación Kinestésica"
  }

  function DefaultDescription(s: Style): string {
    match s
    case Visual => "Para estudiantes que aprenden mejor con imágenes y diagramas"
    case Auditory => "Para estudiantes que aprenden mejor escuchando"
    case Reading => "Para quienes procesan mejor leyendo y redactando"
    case Kinesthetic => "Para estudiantes que aprenden haciendo"
  }

  /** The three built-in activities of each style, in display order. */
  function DefaultActivities(s: Style): (r: seq<string>)
    ensures |r| == 3
  {
    [FirstActivity(s), SecondActivity(s), ThirdActivity(s)]
  }

  function FirstActivity(s: Style): string {
    match s
    case Visual => "Crear un mapa conceptual sobre las causas del cambio climático"
    case Auditory => "Participar en debate sobre políticas climáticas"
    case Reading => "Redactar un ensayo breve con tesis y 3 evidencias"
    case Kinesthetic => "Experimento: medir huella de carbono personal"
  }

  function SecondActivity(s: Style): string {
    match s
    case Visual => "Analizar infografías comparativas de emisiones de CO2"
    case Auditory => "Escuchar un podcast y resumir puntos clave"
    case Reading => "Fichar 2 artículos y comparar argumentos"
    case Kinesthetic => "Proyecto: plan de sostenibilidad escolar"
  }

  function ThirdActivity(s: Style): string {
    match s
    case Visual => "Diseñar una línea de tiempo visual de eventos climáticos"
    case Auditory => "Exposición oral defendiendo una solución"
    case Reading => "Elaborar glosario con términos clave"
    case Kinesthetic => "Role-play: simular una cumbre climática"
  }

  /** Three built-in resources per style. */
  function DefaultResources(s: Style): (r: seq<string>)
    ensures |r| == 3
  {
    match s
    case Visual => ["Diagramas de flujo", "Gráficos interactivos", "Videos educativos"]
    case Auditory => ["Podcasts educativos", "Debates grabados", "Entrevistas a expertos"]
    case Reading => ["Artículos académicos", "Reportes", "Guías de estilo"]
    case Kinesthetic => ["Calculadoras de huella", "Kits de experimentos", "Materiales reciclados"]
  }

  /** One style's entry in the server's adaptations; either list may be
      missing. */
  datatype ServerAdaptation = ServerAdaptation(actividades: Option<seq<string>>,
                                               recursos: Option<seq<string>>)

  /** A server list wins whenever it is present, even when empty (an empty
      array is truthy in JavaScript); otherwise the built-in list is used. */
  function PresentOr(server: Option<seq<string>>, fallback: seq<string>): (r: seq<string>)
    ensures server.Some? ==> r == server.value
    ensures server.None? ==> r == fallback
  {
    if server.Some? then server.value else fallback
  }

  /** The adaptations shown: one per tab, in tab order, titled from the
      built-in entry and filled from the server's entry where it has one. */
  function UiAdaptaciones(profile: Modality, server: map<Style, ServerAdaptation>): (r: seq<Adaptation>)
    ensures |r| == |TabsToShow(profile)|
    ensures forall k :: 0 <= k < |r| ==>
      var s := TabsToShow(profile)[k];
      && r[k].kind == s
      && r[k].title == DefaultAdaptation(s).title
      && r[k].description == DefaultAdaptation(s).description
      && r[k].activities == (if s in server && server[s].actividades.Some?
                             then server[s].actividades.value else DefaultAdaptation(s).activities)
      && r[k].resources == (if s in server && server[s].recursos.Some?
                            then server[s].recursos.value else DefaultAdaptation(s).resources)
  {
    var tabs := TabsToShow(profile);
    seq(|tabs|, k requires 0 <= k < |tabs| => Merge(tabs[k], server))
  }

  function Merge(s: Style, server: map<Style, ServerAdaptation>): Adaptation {
    var fallback := DefaultAdaptation(s);
    var entry := if s in server then server[s] else ServerAdaptation(None, None);
    Adaptation(s, fallback.title, fallback.description,
               PresentOr(entry.actividades, fallback.activities),
               PresentOr(entry.recursos, fallback.resources))
  }

  /** With no server adaptations every tab shows its built-in entry. */
  lemma NoServerMeansDefaults(profile: Modality)
    ensures forall k :: 0 <= k < |UiAdaptaciones(profile, map[])| ==>
              UiAdaptaciones(profile, map[])[k] == DefaultAdaptation(TabsToShow(profile)[k])
  {
    var ui := UiAdaptaciones(profile, map[]);
    forall k | 0 <= k < |ui| ensures ui[k] == DefaultAdaptation(TabsToShow(profile)[k]) {
      var a := DefaultAdaptation(TabsToShow(profile)[k]);
      assert ui[k] == Adaptation(a.kind, a.title, a.description, a.activities, a.resources);
    }
  }

  /** Shape compatibility with the activity agent: adaptations in the
      agent's `actividades`/`recursos` shape, were a server to send them back,
      would replace every built-in list on every tab. The screen itself posts
      to a different route, so this is not a flow the program runs. */
  lemma AgentAdaptationsAreShown(profile: Modality)
    ensures var server := map s | s in ActivityAgent.Adaptations(profile) ::
                            ServerAdaptation(Some(ActivityAgent.Adaptations(profile)[s].actividades),
                                             Some(ActivityAgent.Adaptations(profile)[s].recursos));
      var ui := UiAdaptaciones(profile, server);
      forall k :: 0 <= k < |ui| ==>
        && ui[k].activities == ActivityAgent.Catalog(ui[k].kind).actividades
        && ui[k].resources == ActivityAgent.Catalog(ui[k].kind).recursos
  {
    TabsMatchAgent(profile);
  }

  // ---------------------------------------------------------------------
  // The generate button

  datatype Form = Form(topic: string, objective: string, duration: string)

  datatype GeneratePayload = GeneratePayload(
    topic: string,
    objectives: string,
    learningStyles: seq<string>,
    inclusionNeeds: seq<string>,
    complexity: string)

  /** What the result panel shows right after the button is pressed. */
  datatype Shown = NoResult | ErrorShown(message: string)

  datatype GenerateStep = GenerateStep(shown: Shown, request: Option<GeneratePayload>, loading: bool)

  const MissingClassMessage := "Debes ingresar el ID de la clase (id_clase)"

  /** JavaScript `a || b` on strings: `b` when `a` is empty. */
  function OrElse(a: string, b: string): (r: string)
    ensures a != "" ==> r == a
    ensures a == "" ==> r == b
  {
    if a != "" then a else b
  }

  /** The synchronous part of pressing "generate": the previous result is
      cleared first; nothing is sent while a request is in flight or when no
      class id is given; otherwise the request goes out with the form's
      values or their defaults. */
  function Generate(loading: bool, classId: string, form: Form, profile: Modality): (r: GenerateStep)
    ensures loading ==> r == GenerateStep(NoResult, None, true)
    ensures !loading && classId == "" ==> r == GenerateStep(ErrorShown(MissingClassMessage), None, false)
    ensures !loading && classId != "" ==>
      && r.shown == NoResult && r.loading && r.request.Some?
      && r.request.value.topic == (if form.topic != "" then form.topic else "Actividad sin título")
      && r.request.value.objectives == (if form.objective != "" then form.objective else "Objetivo no definido")
      && r.request.value.complexity == (if form.duration != "" then form.duration else "media")
      && r.request.value.learningStyles == LearningStyles(profile)
      && r.request.value.inclusionNeeds == []
  {
    if loading then GenerateStep(NoResult, None, true)
    else if classId == "" then GenerateStep(ErrorShown(MissingClassMessage), None, false)
    else
      GenerateStep(NoResult,
                   Some(GeneratePayload(OrElse(form.topic, "Actividad sin título"),
                                        OrElse(form.objective, "Objetivo no definido"),
                                        LearningStyles(profile), [],
                                        OrElse(form.duration, "media"))),
                   true)
  }

  /** A request goes out exactly when none is in flight and a class id is
      given, and its topic, objectives and complexity are never empty. */
  lemma GenerateSendsOnlyWhenReady(loading: bool, classId: string, form: Form, profile: Modality)
    ensures Generate(loading, classId, form, profile).request.Some? <==> !loading && classId != ""
    ensures Generate(loading, classId, form, profile).request.Some? ==>
      var p := Generate(loading, classId, form, profile).request.value;
      p.topic != "" && p.objectives != "" && p.complexity != "" && |p.learningStyles| >= 1
  {
  }

  // ---------------------------------------------------------------------
  // The base activity shown after generating

  const DefaultObjective := "Desarrollar pensamiento crítico sobre el tema seleccionado"

  const DefaultBaseSteps := [
    Step("Tesis principal", "Formular una tesis clara sobre la postura del equipo"),
    Step("Razones y evidencias", "Aportar al menos 3 razones con fuentes confiables"),
    Step("Contraargumentos", "Anticipar objeciones y responder de forma fundamentada")]

  /** The objective shown: the server's, else the form's, else a fixed
      sentence; it is never empty. */
  function BaseObjetivo(server: Option<string>, formObjective: string): (r: string)
    ensures r != ""
    ensures server.Some? && server.value != "" ==> r == server.value
    ensures (server.None? || server.value == "") && formObjective != "" ==> r == formObjective
    ensures (server.None? || server.value == "") && formObjective == "" ==> r == DefaultObjective
  {
    OrElse(server.GetOr(""), OrElse(formObjective, DefaultObjective))
  }

  /** The steps shown: the server's list whenever present, else three fixed
      steps. */
  function BasePasos(server: Option<seq<Step>>): (r: seq<Step>)
    ensures server.Some? ==> r == server.value
    ensures server.None? ==> |r| == 3 && r == DefaultBaseSteps
  {
    if server.Some? then server.value else DefaultBaseSteps
  }

  /** Shape compatibility with the activity agent: were a response to carry
      the agent's base, the objective shown would be that base's objective,
      which is never empty. The screen reads its objective from a different
      route's response, so this is not a flow the program runs. */
  lemma AgentObjectiveIsShown(topic: string, objective: string, formObjective: string)
    ensures BaseObjetivo(Some(ActivityAgent.BuildBase(topic, objective).objetivo), formObjective)
            == ActivityAgent.BuildBase(topic, objective).objetivo
  {
  }
}
