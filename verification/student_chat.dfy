/** The pure decisions of the student chat screen
    (src/components/student-chat.tsx): which learning needs a message
    reveals, when a request for a final answer is refused, when a message is
    sent for argument analysis, which part of the history is sent to the
    chat model, and what one press of "send" does to the conversation. */
module StudentChat {
  import opened Wrappers
  import opened Types
  import opened Text
  import opened Http
  import InsightsApi
  import InsightStore
  import GroupProfileApi
  import ActivityAgent

  // ---------------------------------------------------------------------
  // Needs derived from the student's text

  const NeedCounter := "contraargumentos"
  const NeedSynthesis := "síntesis"

  /** The learning needs a message reveals, read from its lower-cased text:
      counter-arguments first, then synthesis. */
  function DeriveNeeds(userText: string): (r: seq<string>)
    ensures NeedCounter in r <==> Contains(Lower(userText), "contraargument")
    ensures NeedSynthesis in r <==> (Contains(Lower(userText), "resumen")
                                    || Contains(Lower(userText), "síntesis")
                                    || Contains(Lower(userText), "sintesis"))
    ensures forall k :: 0 <= k < |r| ==> r[k] == NeedCounter || r[k] == NeedSynthesis
    ensures |r| <= 2
    ensures |r| == 2 ==> r == [NeedCounter, NeedSynthesis]
  {
    var t := Lower(userText);
    (if Contains(t, "contraargument") then [NeedCounter] else [])
      + (if Contains(t, "resumen") || Contains(t, "síntesis") || Contains(t, "sintesis")
         then [NeedSynthesis] else [])
  }

  // ---------------------------------------------------------------------
  // The insight ping sent after every reply

  const PingClassId := "demo-class-1"
  const PingStudentId := "s1"
  const PingTopic := "Cambio climático"
  const PingMetrics := Metrics(72, 68, 61)

  /** What one exchange reports to the insight route. The echo of the two
      texts travels along but the route ignores it. */
  datatype Ping = Ping(userText: string, aiText: string)

  /** The POST body a ping sends to the insight route. */
  function PingBody(p: Ping): InsightsApi.PostBody {
    InsightsApi.PostBody(Some(PingClassId), Some(PingStudentId), Some("mixed"), Some("intermedio"),
                         Some([]), Some(DeriveNeeds(p.userText)), Some(PingTopic), Some(PingMetrics))
  }

  /** Every ping is accepted by the insight route: it is recorded under the
      fixed class and student, as a `mixed`, `intermedio` insight with no
      strengths, the fixed metrics, and the needs the user's text reveals. */
  lemma PingIsRecorded(store: InsightStore.Store, p: Ping, newId: string, now: nat)
    ensures var (reply, after) := InsightsApi.Handle(store, InsightsApi.Request(Post, Some(PingBody(p)), None), newId, now);
      && reply == InsightsApi.Created(newId)
      && after == store + [Insight(newId, PingClassId, PingStudentId, now, Some("mixed"), Some("intermedio"),
                                   [], DeriveNeeds(p.userText), Some(PingTopic), Some(PingMetrics))]
  {
    var (reply, after) := InsightsApi.Handle(store, InsightsApi.Request(Post, Some(PingBody(p)), None), newId, now);
    assert after[..|store|] == store;
    assert after == after[..|store|] + [after[|store|]];
  }

  /** A ping's insight never adds to a group-profile bucket: `mixed` is no
      bucket of its own. */
  lemma PingIsNeverBucketed(store: InsightStore.Store, p: Ping, newId: string, now: nat)
    ensures var after := InsightsApi.Handle(store, InsightsApi.Request(Post, Some(PingBody(p)), None), newId, now).1;
      GroupProfileApi.BucketOf(after[|after| - 1]).None?
  {
    PingIsRecorded(store, p, newId, now);
  }

  /** Mentioning a summary in the chat is what later earns the student the
      synthesis objective in a personalised activity, and mentioning
      counter-arguments the counter-argument objective. */
  lemma PingDrivesObjectives(store: InsightStore.Store, p: Ping, newId: string, now: nat)
    ensures var after := InsightsApi.Handle(store, InsightsApi.Request(Post, Some(PingBody(p)), None), newId, now).1;
      var objetivos := ActivityAgent.Objectives(ActivityAgent.SignalOf(after[|after| - 1]));
      && (ActivityAgent.ObjSynthesisNeed in objetivos
          <==> (Contains(Lower(p.userText), "resumen") || Contains(Lower(p.userText), "síntesis")
                || Contains(Lower(p.userText), "sintesis")))
      && (ActivityAgent.ObjCounterNeed in objetivos <==> Contains(Lower(p.userText), "contraargument"))
      && ActivityAgent.ObjAnalysis !in objetivos
  {
    PingIsRecorded(store, p, newId, now);
    var needs := DeriveNeeds(p.userText);
    assert "sintesis" !in needs;
  }

  // ---------------------------------------------------------------------
  // Gating of a message

  /** Requests for a final answer that the coach mode answers with guidance. */
  const RefusalPatterns := ["dame la respuesta", "resuélvelo por mí", "resuelvelo por mi",
                            "hazme la tarea", "solo la respuesta", "no expliques"]

  /** The text asks outright for the answer, in any ASCII letter case. */
  function ShouldRefuseDirectAnswer(text: string): (r: bool)
    ensures r <==> exists k :: 0 <= k < |RefusalPatterns| && Contains(Lower(text), RefusalPatterns[k])
  {
    ContainsAny(Lower(text), RefusalPatterns)
  }

  /** A refusal pattern written in any ASCII letter case, anywhere in the
      text, triggers the refusal. */
  lemma RefusalIgnoresCase(pre: string, asked: string, post: string, k: nat)
    requires k < |RefusalPatterns| && Lower(asked) == RefusalPatterns[k]
    ensures ShouldRefuseDirectAnswer(pre + asked + post)
  {
    LowerAppend(pre + asked, post);
    LowerAppend(pre, asked);
    assert Contains(Lower(asked), RefusalPatterns[k]) by {
      assert OccursAt(Lower(asked), RefusalPatterns[k], 0);
    }
    ContainsInContext(Lower(pre), Lower(asked), Lower(post), RefusalPatterns[k]);
  }

  /** Phrases that mark a message as an argument worth analysing; matched
      with their exact letter case. */
  const AnalysisCues := ["creo que", "mi opinión", "considero", "argumento", "tesis", "evidencia"]

  /** Long messages that state a position are sent for argument analysis.
      The length is JavaScript's, in UTF-16 code units. */
  function ShouldAnalyze(text: string): (r: bool)
    ensures r <==> Utf16Length(text) > 100
                   && exists k :: 0 <= k < |AnalysisCues| && Contains(text, AnalysisCues[k])
  {
    Utf16Length(text) > 100 && ContainsAny(text, AnalysisCues)
  }

  /** A message of at most 100 code units is never analysed. */
  lemma ShortMessagesAreNotAnalyzed(text: string)
    requires Utf16Length(text) <= 100
    ensures !ShouldAnalyze(text)
  {
  }

  /** A message of 100 characters is analysed when enough of them lie
      outside the Basic Multilingual Plane: "creo que", 87 letters and five
      emoji are 105 code units. */
  lemma EmojiLengthenMessages()
    ensures var s := "creo que" + seq(87, _ => 'a') + seq(5, _ => '\U{1F4DA}');
      |s| == 100 && ShouldAnalyze(s)
  {
    var cue := "creo que";
    var rest := seq(87, _ => 'a') + seq(5, _ => '\U{1F4DA}');
    EmojiMessageUnits(cue, seq(87, _ => 'a'), seq(5, _ => '\U{1F4DA}'));
    ContainsInContext("", cue, rest, cue) by {
      assert OccursAt(cue, cue, 0);
    }
    assert "" + cue + rest == cue + seq(87, _ => 'a') + seq(5, _ => '\U{1F4DA}');
  }

  lemma EmojiMessageUnits(cue: string, letters: string, emoji: string)
    requires cue == "creo que" && letters == seq(87, _ => 'a') && emoji == seq(5, _ => '\U{1F4DA}')
    ensures Utf16Length(cue + letters + emoji) == 105
  {
    Utf16LengthAppend(cue + letters, emoji);
    Utf16LengthAppend(cue, letters);
    Utf16LengthOfBmp(cue);
    Utf16LengthOfBmp(letters);
    EmojiUnits(emoji);
  }

  /** Every character outside the Basic Multilingual Plane counts twice. */
  lemma {:induction false} EmojiUnits(s: string)
    requires forall k :: 0 <= k < |s| ==> s[k] as int >= 0x1_0000
    ensures Utf16Length(s) == 2 * |s|
    decreases |s|
  {
    if s != [] {
      assert forall k :: 0 <= k < |s[1..]| ==> s[1..][k] == s[k + 1];
      EmojiUnits(s[1..]);
    }
  }

  // ---------------------------------------------------------------------
  // Conversation sent to the chat model

  datatype Sender = User | Ai | System

  /** The `type` tag that selects how the screen renders a message. */
  datatype Kind = Question | Plain | Analysis

  datatype Message = Message(id: int, sender: Sender, content: string, kind: Kind,
                             questions: seq<string>)

  const GreetingText := "¡Hola! Soy tu asistente de pensamiento crítico. Puedo ayudarte a analizar tus argumentos y mejorar tu razonamiento. ¿En qué estás trabajando hoy? 📚"

  /** The conversation a new screen starts with. */
  const Initial := [Message(1, Ai, GreetingText, Plain, [])]

  /** At most this many messages of history reach the model. */
  const WindowSize := 10

  /** The history without the assistant's greeting, when it opens it. */
  function WithoutGreeting(msgs: seq<Message>): (r: seq<Message>)
    ensures msgs != [] && msgs[0].sender == Ai ==> r == msgs[1..]
    ensures !(msgs != [] && msgs[0].sender == Ai) ==> r == msgs
  {
    if msgs != [] && msgs[0].sender == Ai then msgs[1..] else msgs
  }

  /** The history sent along: the last ten messages after the greeting is
      dropped, in their original order. */
  function Window(msgs: seq<Message>): (r: seq<Message>)
    ensures var kept := WithoutGreeting(msgs);
      && |r| == (if |kept| < WindowSize then |kept| else WindowSize)
      && forall k :: 0 <= k < |r| ==> r[k] == msgs[|msgs| - |r| + k]
  {
    var kept := WithoutGreeting(msgs);
    if |kept| <= WindowSize then kept else kept[|kept| - WindowSize..]
  }

  /** Whenever the greeting opens the history, it is not part of the window,
      and the window always ends with the latest message. */
  lemma WindowDropsGreeting(msgs: seq<Message>)
    requires |msgs| >= 2 && msgs[0].sender == Ai
    ensures |Window(msgs)| < |msgs|
    ensures Window(msgs)[|Window(msgs)| - 1] == msgs[|msgs| - 1]
    ensures forall k :: 0 <= k < |Window(msgs)| ==> Window(msgs)[k] in msgs[1..]
  {
    var r := Window(msgs);
    forall k | 0 <= k < |r| ensures r[k] in msgs[1..] {
      assert r[k] == msgs[1..][|msgs| - |r| + k - 1];
    }
  }

  datatype Mode = Coach | Direct

  datatype Role = SystemRole | UserRole | AssistantRole

  datatype Turn = Turn(role: Role, content: string)

  const DirectPrompt := "Responde en español, de forma directa, concreta y breve. Da la mejor respuesta inmediata sin repetir la pregunta, sin añadir prefijos como \"Assistant:\" ni recapitulaciones."
    + " Evita sermones y entrega solo la información necesaria."

  const CoachPrompt := "Eres un tutor socrático en español. Tu objetivo es formar el razonamiento del estudiante."
    + " No entregues respuestas finales directas a problemas o tareas evaluables."
    + " En su lugar: (1) reconoce brevemente el objetivo; (2) formula de 1 a 3 preguntas guía específicas;"
    + " (3) ofrece un micro-plan de 3 pasos para avanzar; (4) propone un ejemplo pequeño (no la solución completa);"
    + " (5) pregunta si desea una pista adicional."
    + " Sé breve y concreto. Evita sermones y generalidades."

  function SystemPrompt(m: Mode): string {
    if m == Direct then DirectPrompt else CoachPrompt
  }

  function RoleOf(s: Sender): Role {
    if s == User then UserRole else AssistantRole
  }

  /** The chat request: the mode's system prompt, then each message of the
      window as a user or an assistant turn. */
  function Payload(m: Mode, conversation: seq<Message>): (r: seq<Turn>)
    ensures |r| == |conversation| + 1
    ensures r[0] == Turn(SystemRole, SystemPrompt(m))
    ensures forall k :: 0 <= k < |conversation| ==>
              && r[k + 1].content == conversation[k].content
              && (r[k + 1].role == UserRole <==> conversation[k].sender == User)
              && (r[k + 1].role == AssistantRole <==> conversation[k].sender != User)
  {
    [Turn(SystemRole, SystemPrompt(m))]
      + seq(|conversation|, k requires 0 <= k < |conversation| =>
              Turn(RoleOf(conversation[k].sender), conversation[k].content))
  }

  /** Only the first turn of a request carries the system role. */
  lemma OneSystemTurn(m: Mode, conversation: seq<Message>)
    ensures forall k :: 0 <= k < |Payload(m, conversation)| ==>
              (Payload(m, conversation)[k].role == SystemRole <==> k == 0)
  {
    var r := Payload(m, conversation);
    forall k | 1 <= k < |r| ensures r[k].role != SystemRole {
      assert r[k].role == UserRole || r[k].role == AssistantRole by {
        assert r[(k - 1) + 1] == r[k];
      }
    }
  }

  // ---------------------------------------------------------------------
  // One press of "send"

  datatype ChatState = ChatState(draft: string, messages: seq<Message>, loading: bool, mode: Mode)

  /** How the chat request ended: with a reply body (`content` may be
      empty), or with an error (a network failure or a non-OK status). */
  datatype ChatOutcome = Answered(content: string) | Failed

  /** Everything one send produces: the next screen state, the chat request
      if one was made, and the insight ping if one was sent. */
  datatype SendResult = SendResult(state: ChatState, request: Option<seq<Turn>>, ping: Option<Ping>)

  const AnalysisIntro := "He analizado tu argumento. Aquí tienes un análisis detallado y sugerencias para mejorar:"
  const GuidedIntro := "No puedo darte la respuesta directa, pero puedo guiarte. Empecemos con 3 preguntas y un plan breve:"
  const GuidedQuestions := ["¿Qué te pide exactamente la consigna y qué dato clave ya tienes?",
                            "¿Qué estrategia o fórmula se ajusta mejor a ese tipo de problema?",
                            "¿Qué suposición podrías comprobar primero con un ejemplo pequeño?"]
  const EmptyReply := "Lo siento, no pude generar una respuesta ahora."
  const ErrorReply := "Hubo un problema al contactar la IA. Verifica la configuración del servidor o las llaves en .env."

  /** Which of the three answers a send takes. */
  datatype Path = Analyzed | Guided | Chatted

  function PathOf(s: ChatState, analysis: bool): Path {
    if ShouldAnalyze(s.draft) && analysis then Analyzed
    else if s.mode == Coach && ShouldRefuseDirectAnswer(s.draft) then Guided
    else Chatted
  }

  /** Sends the draft. `analysis` is whether the analysis service returned a
      result (only asked when the draft qualifies); `chat` is how the chat
      request ended, when one is made. */
  function HandleSend(s: ChatState, analysis: bool, chat: ChatOutcome): (r: SendResult)
    // A blank draft or a send in flight changes nothing.
    ensures IsBlank(s.draft) || s.loading ==> r == SendResult(s, None, None)
    // Otherwise: the user's message and exactly one reply are appended, and
    // one ping reports the exchange.
    ensures !IsBlank(s.draft) && !s.loading ==>
      var n := |s.messages|;
      && |r.state.messages| == n + 2
      && r.state.messages[..n] == s.messages
      && r.state.messages[n] == Message(n + 1, User, s.draft, Plain, [])
      && r.state.messages[n + 1].id == n + 2
      && r.state.messages[n + 1].sender == Ai
      && r.state.draft == "" && !r.state.loading && r.state.mode == s.mode
      && r.ping.Some? && r.ping.value.userText == s.draft
      && (r.ping.value.aiText == "" <==> PathOf(s, analysis) == Chatted && chat.Failed?)
    // The three paths, in the order they are tried.
    ensures !IsBlank(s.draft) && !s.loading && PathOf(s, analysis) == Analyzed ==>
      && r.state.messages[|s.messages| + 1].content == AnalysisIntro
      && r.state.messages[|s.messages| + 1].kind == Analysis
      && r.state.messages[|s.messages| + 1].questions == []
      && r.request.None?
    ensures !IsBlank(s.draft) && !s.loading && PathOf(s, analysis) == Guided ==>
      && r.state.messages[|s.messages| + 1].content == GuidedIntro
      && r.state.messages[|s.messages| + 1].kind == Question
      && r.state.messages[|s.messages| + 1].questions == GuidedQuestions
      && r.request.None?
    ensures !IsBlank(s.draft) && !s.loading && PathOf(s, analysis) == Chatted ==>
      var next := s.messages + [Message(|s.messages| + 1, User, s.draft, Plain, [])];
      && r.request == Some(Payload(s.mode, Window(next)))
      && r.state.messages[|s.messages| + 1].kind == Plain
      && r.state.messages[|s.messages| + 1].questions == []
      && r.state.messages[|s.messages| + 1].content
         == (match chat
             case Answered(c) => if c != "" then c else EmptyReply
             case Failed => ErrorReply)
  {
    if IsBlank(s.draft) || s.loading then SendResult(s, None, None)
    else
      var n := |s.messages|;
      var user := Message(n + 1, User, s.draft, Plain, []);
      var next := s.messages + [user];
      var (reply, request, aiText) :=
        match PathOf(s, analysis)
        case Analyzed => (Message(n + 2, Ai, AnalysisIntro, Analysis, []), None, AnalysisIntro)
        case Guided => (Message(n + 2, Ai, GuidedIntro, Question, GuidedQuestions), None, GuidedIntro)
        case Chatted =>
          var request := Payload(s.mode, Window(next));
          match chat
          case Answered(c) =>
            var text := if c != "" then c else EmptyReply;
            (Message(n + 2, Ai, text, Plain, []), Some(request), text)
          case Failed => (Message(n + 2, Ai, ErrorReply, Plain, []), Some(request), "");
      SendResult(ChatState("", next + [reply], false, s.mode), request, Some(Ping(s.draft, aiText)))
  }

  /** In direct mode a request for the final answer goes to the model like
      any other message: unless the draft was analysed, the model is asked,
      with the direct prompt first. */
  lemma DirectModeAlwaysAsks(s: ChatState, analysis: bool, chat: ChatOutcome)
    requires s.mode == Direct && !IsBlank(s.draft) && !s.loading
    requires !(ShouldAnalyze(s.draft) && analysis)
    ensures HandleSend(s, analysis, chat).request.Some?
    ensures HandleSend(s, analysis, chat).request.value[0] == Turn(SystemRole, DirectPrompt)
  {
    assert PathOf(s, analysis) == Chatted;
  }

  /** Message ids stay consecutive: starting from ids 1..n, a send keeps
      them 1..n+2. */
  lemma IdsStayConsecutive(s: ChatState, analysis: bool, chat: ChatOutcome)
    requires forall k :: 0 <= k < |s.messages| ==> s.messages[k].id == k + 1
    ensures var after := HandleSend(s, analysis, chat).state.messages;
      forall k :: 0 <= k < |after| ==> after[k].id == k + 1
  {
    if !IsBlank(s.draft) && !s.loading {
      NumberedAfterTwo(s.messages, HandleSend(s, analysis, chat).state.messages);
    }
  }

  /** Two messages numbered n+1 and n+2 appended to messages numbered 1..n
      give messages numbered 1..n+2. */
  lemma NumberedAfterTwo(before: seq<Message>, after: seq<Message>)
    requires forall k :: 0 <= k < |before| ==> before[k].id == k + 1
    requires |after| == |before| + 2 && after[..|before|] == before
    requires after[|before|].id == |before| + 1 && after[|before| + 1].id == |before| + 2
    ensures forall k :: 0 <= k < |after| ==> after[k].id == k + 1
  {
    forall k | 0 <= k < |before| ensures after[k].id == k + 1 {
      assert after[k] == after[..|before|][k];
    }
  }
}
