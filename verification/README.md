# MentorFrontend core, modelled in Dafny

This project models the logic at the heart of MentorFrontend. MentorFrontend is a critical-thinking tutoring front end: students chat with an AI coach, the chat reports "insights" about each student, and teachers generate activities adapted to their class's learning styles.

The model covers three server routes:
- the insight intake route (`insights.ts`);
- the class learning-style profile (`group-profile.ts`);
- the activity personalisation engine (`activity-agent.ts`).

It also covers the shared data model (`types.ts`) and the pure decisions of six screens:
- the student chat: needs extraction, refusal and analysis gating, the history window, the request payload, and one "send";
- activity creation: tabs, the adaptation merge, the generate guard, and the base fallbacks;
- the admin user table and the teacher student table: search, filters, delete, edit, counters, and the last-admin guard;
- the demo login routing;
- the four-step argument guide.

Every operation is a pure Dafny function over immutable datatypes. A route becomes a function from a request record (and the insight store) to a reply datatype; a screen action becomes a function from the screen state to the next state. The insight store is an append-only `seq<Insight>`. The module `server/insightsRepo` that implements the store is not part of this model. The id and timestamp it assigns, the class roster it provides and the clock reading are all parameters.

Modules, one per source file or shared concern:
- `Wrappers`: `Option`, `Result`, `MapAll`.
- `Text`: `includes`, ASCII `toLowerCase`, `trim`.
- `Lists`: `filter` and counting facts.
- `Http`: methods and truthiness.
- `Types`.
- `InsightStore`.
- `InsightsApi`.
- `GroupProfileApi`.
- `StyleTally`: `por_estilo`.
- `ActivityAgent`.
- `StudentChat`.
- `TeacherCreate`.
- `UserTable`: what the two user screens share.
- `AdminUsers`.
- `TeacherUsers`.
- `Login`.
- `StudentGuide`.

Where the written description of the system and the code disagree, the model follows the code:
- **Step count.** An insight with the needs síntesis and contraargumentos, metrics 50/80/40 and level `intermedio` gets four objectives and two need steps before the context step, not three extra steps. See `ActivityAgent.TwoNeedsTwoLowMetrics`.
- **Unknown `perfil_aprendizaje`.** An unknown value is not rejected with an error. The code looks it up and gets `undefined`. The model types the selector as `Modality`.
- **Unknown insight modality.** The resource lookup in `personalizeFromInsight` throws when an insight's modality names no catalog entry. The route then answers with a server error, which the model states in `ActivityAgent.Handle`.

## Model

| member | source | states |
|---|---|---|
| Types.ParseModality | src/lib/types.ts:2 | Reading a spelling back gives the modality with that spelling, and none when no modality is spelled so. |
| Types.ModalityIsClosed | src/lib/types.ts:2 | There are exactly five modalities with five distinct spellings. The four styles are all of them except `mixed`. |
| Types.ParseLevel | src/lib/types.ts:18 | A level string is read back only when it is one of basico, intermedio, avanzado, and it round-trips through its spelling. |
| Types.StyleNamed | src/pages/api/activity-agent.ts:102 | A key finds a catalog style exactly when it is one of the four style spellings; `mixed` and anything else find none. |
| InsightStore.Append | src/pages/api/insights.ts:27-36 | Recording grows the store by exactly one insight at the end. That insight carries every submitted field unchanged, plus the given id and timestamp. |
| InsightStore.ByClass | src/pages/api/insights.ts:43 | A class's listing holds exactly the stored insights of that class, in store order, with every copy kept: its length is the number of stored insights of that class. |
| InsightStore.AppendThenList | src/pages/api/insights.ts:27-44 | After an append, a class's listing gains the new insight at its end if the insight is of that class, and is otherwise unchanged. |
| InsightStore.Latest | src/pages/api/activity-agent.ts:162-164 | A student's latest insight is absent iff the student has none. Otherwise it is one of theirs with the greatest timestamp. |
| InsightStore.LatestAfterAppend | src/pages/api/activity-agent.ts:162-164 | When timestamps grow with insertion, the insight just recorded for a student is that student's latest. On a timestamp equal to an earlier one, this rests on the model's tie-break, which favours the later-inserted insight. |
| InsightsApi.Handle | src/pages/api/insights.ts:13-47 | A POST missing classId or studentId gets 400 and writes nothing. A valid POST gets 201 with the new id and appends one insight: lists default to empty, the other fields pass through. A GET without classId gets 400. A GET with classId lists exactly that class's insights, as the class listing gives them. A GET never writes. Any other method gets 405. |
| InsightsApi.ReadsAreRepeatable | src/pages/api/insights.ts:40-44 | Two GETs in a row return the same listing: the store's listing for that class. |
| GroupProfileApi.BucketOf | src/pages/api/group-profile.ts:19-21 | An insight increments a bucket iff its modality is present, known and not `mixed`. The bucket is the one of that spelling. |
| GroupProfileApi.Tally | src/pages/api/group-profile.ts:14-22 | Each bucket counts the insights that name it. The four buckets together count every insight with a known non-mixed modality. |
| GroupProfileApi.Students | src/pages/api/group-profile.ts:15-18 | The student set is exactly the studentIds occurring among the insights. |
| GroupProfileApi.SortByCountDesc | src/pages/api/group-profile.ts:25 | The sorted entries are a permutation of the input, ordered by non-increasing count. |
| GroupProfileApi.Insert | src/pages/api/group-profile.ts:25 | Inserting an entry adds exactly that entry and nothing else. It goes in front unless the head has a strictly larger count, so equal counts keep their original order. |
| GroupProfileApi.InsertSorted | src/pages/api/group-profile.ts:25 | Inserting into a list ordered by non-increasing count keeps it ordered. |
| GroupProfileApi.SortHeadIsFirstMax | src/pages/api/group-profile.ts:25 | The stable sort's head is the first entry carrying the largest count. |
| GroupProfileApi.Dominant | src/pages/api/group-profile.ts:25-26 | The dominant style is `mixed` iff every bucket is empty. Otherwise it has the largest count, and every style earlier in the order visual, auditory, reading, kinesthetic has a strictly smaller one. |
| GroupProfileApi.ProfileOf | src/pages/api/group-profile.ts:14-26 | `total` is the number of distinct students. Each count is the number of insights naming that bucket. `dominant` is `mixed` iff the buckets are empty. Otherwise it is a maximal bucket, and every style earlier in the order visual, auditory, reading, kinesthetic has a strictly smaller count, so ties go to the earliest. |
| GroupProfileApi.Handle | src/pages/api/group-profile.ts:9-32 | A missing or empty classId gets 400. Otherwise the reply is the profile of exactly that class's stored insights. |
| GroupProfileApi.ProfileIgnoresOrder | src/pages/api/group-profile.ts:12-32 | Listing the same insights in another order yields the same profile. |
| GroupProfileApi.SameStudents | src/pages/api/group-profile.ts:15-18 | Two listings of the same insights have the same set of students. |
| GroupProfileApi.SameTally | src/pages/api/group-profile.ts:19-22 | Two listings of the same insights fill the four buckets alike. |
| GroupProfileApi.AllMixedClass | src/pages/api/group-profile.ts:19-26 | A class whose insights are all `mixed` has four empty buckets and a `mixed` dominant style. |
| GroupProfileApi.MixedNeverCounted | src/pages/api/group-profile.ts:20 | `mixed` insights add nothing to any bucket. |
| ActivityAgent.Catalog | src/pages/api/activity-agent.ts:15-51 | Every style's catalog entry offers three activities and three resources. |
| ActivityAgent.BuildBase | src/pages/api/activity-agent.ts:53-71 | The objective is the teacher's when one was given, otherwise exactly "Desarrollar pensamiento crítico sobre " followed by the topic, so it is never empty. The steps are always the three fixed ones. |
| ActivityAgent.GenericObjectiveNamesTopic | src/pages/api/activity-agent.ts:53-56 | The topic can be read back from a generic objective after the fixed prefix, so two generic objectives are equal iff their topics are. |
| ActivityAgent.ResourceStyle | src/pages/api/activity-agent.ts:100-103 | `mixed`, an empty or an absent modality takes the reading resources; each style's spelling takes its own. The lookup fails iff the modality is a non-empty string naming no modality. |
| ActivityAgent.Objectives | src/pages/api/activity-agent.ts:78-98 | Each objective appears iff its rule fires: the síntesis/sintesis need, the contraargumentos need, or analisis, reflexion or sintesis strictly below 70. |
| ActivityAgent.ObjectivesFollowOrder | src/pages/api/activity-agent.ts:78-98 | The objectives always come in the fixed rule order, each at most once. |
| ActivityAgent.Steps | src/pages/api/activity-agent.ts:78-120 | The last step is always the context step for the topic. The synthesis and counter steps appear iff their need is present. The basic and advanced steps appear iff the level is basico or avanzado. |
| ActivityAgent.StepsFollowOrder | src/pages/api/activity-agent.ts:78-120 | The steps always come in the order synthesis, counter, basic, advanced, context, each at most once. |
| ActivityAgent.StepsDistinct | src/pages/api/activity-agent.ts:80-120 | The five steps the rules can add are pairwise different. |
| ActivityAgent.Personalize | src/pages/api/activity-agent.ts:73-129 | Personalising fails exactly when the resource lookup finds no entry. Otherwise it yields the rule objectives, the rule steps and the catalog resources of the resolved style. The modality is reported raw (default `mixed`) and the level defaults to `intermedio`. |
| ActivityAgent.PlanFor | src/pages/api/activity-agent.ts:161-185 | A roster entry's plan fails iff its seed's modality has no catalog entry. A plan that succeeds is the whole plan of the seed (latest insight, or the default seed): studentId and nombre of the entry, the seed's modality (default `mixed`) and level (default `intermedio`), the rule objectives or the single generic one when none fired, exactly the rule steps ending with the context step, and the catalog resources of the seed's style. |
| ActivityAgent.DefaultSeedPlan | src/pages/api/activity-agent.ts:165-175 | A student with no insight gets the default-seed plan: the synthesis need and synthesis-metric objectives, the synthesis and context steps, reading resources, `reading` and `intermedio`. |
| ActivityAgent.DefaultSeedObjectives | src/pages/api/activity-agent.ts:78-98 | The default seed earns the synthesis-need and synthesis-metric objectives only. |
| ActivityAgent.DefaultSeedSteps | src/pages/api/activity-agent.ts:78-120 | The default seed gets the synthesis step and the context step only. |
| ActivityAgent.TwoNeedsTwoLowMetrics | src/pages/api/activity-agent.ts:78-120 | Both needs with analisis 50, reflexion 80 and sintesis 40 give four objectives. At level intermedio the steps are the two need steps and the context step. |
| ActivityAgent.TwoNeedsObjectives | src/pages/api/activity-agent.ts:78-98 | Both needs with analisis 50, reflexion 80 and sintesis 40 give the two need objectives, then the analysis and synthesis metric objectives. |
| ActivityAgent.TwoNeedsSteps | src/pages/api/activity-agent.ts:78-120 | At level intermedio, both needs give the synthesis step, the counter step and the context step, in that order. |
| ActivityAgent.PlansFor | src/pages/api/activity-agent.ts:161-185 | There is one plan per roster entry, in roster order. The whole list fails iff some entry's plan fails. |
| ActivityAgent.PlansSucceedIffSeedsKnown | src/pages/api/activity-agent.ts:161-185 | The plans for a roster are built iff every entry's seed names a catalog entry. |
| ActivityAgent.PlansFollowRoster | src/pages/api/activity-agent.ts:161-185 | Built plans follow the roster: one per entry, in roster order, each naming its entry's studentId and nombre. |
| ActivityAgent.PlanNamesMatch | src/pages/api/activity-agent.ts:176-178 | Each built plan carries the studentId and nombre of the roster entry at the same position. |
| ActivityAgent.Adaptations | src/pages/api/activity-agent.ts:150-158 | `adaptaciones` is keyed by all four styles for `mixed` and otherwise by the requested style alone, each with its catalog entry. |
| ActivityAgent.Respond | src/pages/api/activity-agent.ts:149-208 | Once a class id is given: a server error iff some seed is unknown. Otherwise the activity id is `act-<id_clase>-<now>`, both stats are the roster size, `por_estudiante` is exactly the roster's plans built with topic `titulo ?? "tema"` and the response's base, and the base, `adaptaciones` and `por_estilo` are those of the request and the class's insights. |
| ActivityAgent.Handle | src/pages/api/activity-agent.ts:131-209 | A non-POST gets 405 and a missing id_clase gets 400, before any store read. The reply is a server error iff some roster entry's seed has no catalog entry. Otherwise: the activity id is `act-<id_clase>-<now>` for the given clock reading; `por_estudiante` is exactly the roster's plans, one per entry in roster order with ids and names copied; both stats equal the roster size; the base comes from titulo/objetivo with their defaults; the adaptations follow the profile (default `mixed`); and `por_estilo` is the tally of the class's insights. |
| ActivityAgent.EmptyRoster | src/pages/api/activity-agent.ts:161-202 | An empty roster is not an error: no plans, and both stats are zero. |
| StyleTally.PerStyle | src/pages/api/activity-agent.ts:187-196 | `por_estilo` has a key exactly for each modality occurring, with `mixed` folded into reading. Each tally counts insights, not students, under that key. |
| StyleTally.PerStyleKeys | src/pages/api/activity-agent.ts:188-196 | When every insight has a known modality, the only keys are the four style spellings. |
| StyleTally.PerStyleSum | src/pages/api/activity-agent.ts:187-196 | When every insight has a known modality, the four tallies sum to the number of insights. |
| StudentChat.DeriveNeeds | src/components/student-chat.tsx:178-186 | The needs contain contraargumentos iff the lower-cased text mentions contraargument. They contain síntesis iff it mentions resumen, síntesis or sintesis. There is nothing else and no duplicate, and contraargumentos comes first. |
| StudentChat.PingIsRecorded | src/components/student-chat.tsx:188-210 | Every ping is accepted. It is recorded as a `mixed`, `intermedio` insight of the fixed class, student and topic, with no strengths, metrics 72/68/61, and the needs the text reveals. |
| StudentChat.PingIsNeverBucketed | src/components/student-chat.tsx:188-193 | A ping's insight never adds to a group-profile bucket. |
| StudentChat.PingDrivesObjectives | src/components/student-chat.tsx:178-208 | A recorded ping earns the synthesis-need objective iff the text mentions a summary, and the counter-argument objective iff it mentions counter-arguments. It never earns the analysis objective. |
| StudentChat.ShouldRefuseDirectAnswer | src/components/student-chat.tsx:235-246 | A request is refused iff its lower-cased text contains one of the six answer-seeking patterns. |
| StudentChat.RefusalIgnoresCase | src/components/student-chat.tsx:235-246 | A pattern written in any ASCII letter case, anywhere in the text, triggers the refusal. |
| StudentChat.ShouldAnalyze | src/components/student-chat.tsx:265-272 | A message is analysed iff its JavaScript length (UTF-16 code units) exceeds 100 and it contains one of the six cues, with exact letter case. |
| StudentChat.ShortMessagesAreNotAnalyzed | src/components/student-chat.tsx:266 | No message of at most 100 UTF-16 code units is analysed. |
| StudentChat.EmojiLengthenMessages | src/components/student-chat.tsx:266 | A message of 100 characters, five of them emoji, is 105 code units long and is analysed. |
| StudentChat.EmojiMessageUnits | src/components/student-chat.tsx:266 | The example message of 100 characters with five emoji is 105 UTF-16 code units. |
| Text.Utf16Length | src/components/student-chat.tsx:266 | JavaScript `length` lies between the number of characters and twice it. |
| Text.Utf16LengthOfBmp | src/components/student-chat.tsx:266 | On text inside the Basic Multilingual Plane, `length` is the number of characters. |
| Text.Utf16LengthAppend | src/components/student-chat.tsx:266 | `length` adds up over concatenation. |
| StudentChat.EmojiUnits | src/components/student-chat.tsx:266 | Every character outside the Basic Multilingual Plane counts as two code units. |
| StudentChat.Window | src/components/student-chat.tsx:318-320 | The history sent is the last ten messages (or fewer) after dropping an opening AI greeting, in their original order. |
| StudentChat.WindowDropsGreeting | src/components/student-chat.tsx:318-320 | The greeting is never sent. The window ends with the newest message and holds only later messages. |
| StudentChat.Payload | src/components/student-chat.tsx:322-330 | The request starts with the mode's system prompt, then one turn per message with the same content. A turn is a user turn iff the sender is the user, and an assistant turn otherwise. |
| StudentChat.OneSystemTurn | src/components/student-chat.tsx:322-330 | Only the first turn carries the system role. |
| StudentChat.HandleSend | src/components/student-chat.tsx:248-369 | A blank draft or a send in flight changes nothing. Otherwise the user message (id n+1) and exactly one AI reply (id n+2) are appended, the draft clears, loading ends and one ping is sent. The reply is the analysis intro (kind analysis), the guided intro with its three questions (kind question) or the chat answer (kind message), tried in that order; only the guided reply carries questions. An empty answer becomes the apology and a failure becomes the error text. The ping's AI text is empty iff the chat request failed. |
| StudentChat.DirectModeAlwaysAsks | src/components/student-chat.tsx:299-330 | In direct mode an answer request is never refused: unless the draft was analysed, the model is asked, with the direct prompt first. |
| StudentChat.IdsStayConsecutive | src/components/student-chat.tsx:251-365 | Message ids numbered 1..n stay numbered 1..n+2 after a send. |
| TeacherCreate.TabsToShow | src/components/teacher-create.tsx:337-341 | `mixed` shows the four style tabs; any other profile shows its own tab only. |
| TeacherCreate.LearningStyles | src/components/teacher-create.tsx:218-221 | The requested learning styles are the spellings of the tabs shown, in the same order. |
| TeacherCreate.TabsMatchAgent | src/components/teacher-create.tsx:337-341 | The tabs are pairwise distinct and are exactly the styles the activity agent returns adaptations for. |
| TeacherCreate.DefaultAdaptation | src/components/teacher-create.tsx:137-199 | Every style has a built-in adaptation of that style, with three activities and three resources. |
| TeacherCreate.PresentOr | src/components/teacher-create.tsx:368-369 | A server list wins whenever it is present, even when empty. Otherwise the built-in list is used. |
| TeacherCreate.UiAdaptaciones | src/components/teacher-create.tsx:346-373 | There is one adaptation per tab, in tab order, of that tab's style. Title and description are always built-in. Activities and resources come from the server entry where that list is present. |
| TeacherCreate.NoServerMeansDefaults | src/components/teacher-create.tsx:360-371 | Without server adaptations every tab shows its built-in adaptation. |
| TeacherCreate.AgentAdaptationsAreShown | src/components/teacher-create.tsx:360-371 | Shape compatibility only (the screen posts to another route): adaptations in the activity agent's shape, sent back as the server's, would make every tab show the agent catalog's activities and resources. |
| TeacherCreate.OrElse | src/components/teacher-create.tsx:216-223 | The JavaScript or-operator on strings: the first string when it is non-empty, otherwise the second. |
| TeacherCreate.Generate | src/components/teacher-create.tsx:201-227 | The previous result is cleared first. Nothing is sent while loading. An empty class id shows the error and sends nothing. Otherwise the request carries the form values, or their defaults when empty. |
| TeacherCreate.GenerateSendsOnlyWhenReady | src/components/teacher-create.tsx:203-227 | A request goes out iff none is in flight and a class id is given. Its topic, objectives and complexity are then never empty, and it names at least one style. |
| TeacherCreate.BaseObjetivo | src/components/teacher-create.tsx:576-579 | The objective shown falls back from the server's, to the form's, to a fixed sentence, and is never empty. |
| TeacherCreate.BasePasos | src/components/teacher-create.tsx:581-594 | The steps shown are the server's whenever present, otherwise the three fixed steps. |
| TeacherCreate.AgentObjectiveIsShown | src/components/teacher-create.tsx:576-579 | Shape compatibility only (the screen reads another route's response): a response carrying the activity agent's base would show that base's objective. |
| UserTable.EmptySearchMatches | src/components/admin-users.tsx:76-77 | An empty search matches every user. |
| UserTable.SearchIgnoresCase | src/components/admin-users.tsx:76-77 | Searching for a term or for its lower-cased form matches the same users. |
| UserTable.DeleteById | src/components/admin-users.tsx:63-66 | Deleting keeps exactly the users with another id, in order. It removes as many as carry the id, and changes nothing when none does. |
| UserTable.SaveEdit | src/components/admin-users.tsx:68-73 | Saving replaces exactly the entries with the edited id and keeps the length. With no edit open it changes nothing. |
| UserTable.AtMostOneWithId | src/components/admin-users.tsx:63-66 | With unique ids, at most one user carries a given id. |
| UserTable.DeleteKeepsOthers | src/components/admin-users.tsx:63-66 | Of the users with any property, a delete loses exactly those with the deleted id. |
| AdminUsers.FilteredUsers | src/components/admin-users.tsx:75-81 | A user is listed iff the name or email matches the search ignoring case, the role filter is `all` or equal, and the status filter is `all` or equal. The list keeps the table's order and every copy: its length is the number of users shown. |
| AdminUsers.NoFilterListsEveryone | src/components/admin-users.tsx:75-81 | With an empty search and both filters on `all`, the list is the whole table. |
| AdminUsers.Delete | src/components/admin-users.tsx:63-66 | Deleting removes exactly the users with that id, as many as carry it, and keeps the rest in order. |
| AdminUsers.ConfirmDelete | src/components/admin-users.tsx:389 | The confirm button deletes the dialog's id, but does nothing with no dialog or with id 0. |
| AdminUsers.EditSave | src/components/admin-users.tsx:68-73 | Saving replaces the entries with the edited id and touches nothing else. The length is kept, and there is no change with no edit open. |
| AdminUsers.RoleCountsCoverAll | src/components/admin-users.tsx:148-178 | The student, teacher and admin counters add up to the number of users. |
| AdminUsers.LastAdminSurvives | src/components/admin-users.tsx:297 | With unique ids, deleting a user whose delete button is enabled always leaves at least one administrator. |
| AdminUsers.EditCanDemoteLastAdmin | src/components/admin-users.tsx:424-436 | The edit dialog has no such guard: saving a role change can leave a table with no administrator. |
| TeacherUsers.FilteredUsers | src/components/teacher-users.tsx:73-79 | A user is listed iff the search matches ignoring case, the role filter is `all` or equal, and the group filter is `all` or equal. The list keeps the table's order and every copy: its length is the number of users shown. |
| TeacherUsers.NoFilterListsEveryone | src/components/teacher-users.tsx:73-79 | With an empty search and both filters on `all`, the list is the whole table. |
| TeacherUsers.NarrowingGroupShrinks | src/components/teacher-users.tsx:77 | Choosing a group never lists a user that `all` groups would not. |
| TeacherUsers.Delete | src/components/teacher-users.tsx:61-64 | Deleting removes exactly the users with that id, as many as carry it, and keeps the rest in order. |
| TeacherUsers.ConfirmDelete | src/components/teacher-users.tsx:295 | The confirm button is the delete of the dialog's id, but does nothing with no dialog or with id 0. |
| TeacherUsers.EditSave | src/components/teacher-users.tsx:66-71 | Saving replaces only the entries with the edited id and keeps the length. There is no change with no edit open. |
| TeacherUsers.EditKeepsIdsUnique | src/components/teacher-users.tsx:66-71 | With unique ids, saving an edit changes at most one row, and the ids stay unique. |
| TeacherUsers.StatusCountsCoverAll | src/components/teacher-users.tsx:120-128 | The active and inactive counters add up to the number of users. |
| Login.Route | src/components/login-page.tsx:16-28 | A login always lands on the dashboard of the role it is opened with, and an address containing `student` is always a student login. |
| Login.RouteRoles | src/components/login-page.tsx:19-26 | Which addresses reach each role, case-sensitively. Student wins over everything. Teacher comes from `teacher` or `docente`, admin from `admin`, and every other address is a student. |
| Login.PageDeterminesRole | src/components/login-page.tsx:16-28 | Two logins land on the same page iff they have the same role. |
| Login.StudentWins | src/components/login-page.tsx:19-20 | Adding `student` anywhere to an address makes it a student login. |
| StudentGuide.Next | src/components/student-guide.tsx:62-66 | "Siguiente" moves one step forward, stays on the last step, keeps the responses, and keeps the step in range. |
| StudentGuide.Previous | src/components/student-guide.tsx:68-72 | "Anterior" moves one step back, stays on the first step, keeps the responses, and keeps the step in range. |
| StudentGuide.Select | src/components/student-guide.tsx:126 | Picking a step in the sidebar shows exactly that step and keeps the responses. |
| StudentGuide.ResponseChange | src/components/student-guide.tsx:74-76 | Typing stores the text under the current step. Every other step's response is untouched. |
| StudentGuide.Progress | src/components/student-guide.tsx:78 | Progress is (step+1)/4 of 100, always a whole number between 1 and 100. It is 100 exactly on the last step. |
| StudentGuide.MainButton | src/components/student-guide.tsx:240-248 | The main button is "Finalizar", leading to the student dashboard, exactly on the last step, and "Siguiente" before it. |
| StudentGuide.PreviousDisabledOnlyAtStart | src/components/student-guide.tsx:225-226 | "Anterior" does nothing exactly on the first step, which is where it is disabled. |
| StudentGuide.NextPreviousRoundTrip | src/components/student-guide.tsx:62-72 | Forward then back, and back then forward, return to the same step wherever the move is possible. |
| StudentGuide.NextRaisesProgress | src/components/student-guide.tsx:62-78 | Moving forward strictly raises the progress bar. |
| StudentGuide.Advance | src/components/student-guide.tsx:62-66 | Pressing "Siguiente" any number of times keeps the step in range and the responses unchanged. |
| StudentGuide.AdvanceReaches | src/components/student-guide.tsx:62-66 | n presses from a step reach n steps further, capped at the last step. |
| StudentGuide.TypingCompletesStep | src/components/student-guide.tsx:74-120 | Typing marks the current step completed iff the text is non-empty, and moving on keeps the mark. |

## Left out

- HTTP plumbing: request parsing, status codes as numbers (except `InsightsApi.StatusOf`), JSON bodies, and every `fetch` to `/api/chat`, `/api/analyze-argument`, `/api/generate-inclusive-activity`, `/api/progress-metrics` and `/api/class-metrics`. Each route is a function from a request record to a reply datatype.
- The store module `server/insightsRepo` is not part of this model. Its contents are an input `seq<Insight>`. The id and timestamp of a new insight are parameters, and so is the class roster provider.
- InsightStore.Latest: the tie-break between two insights of one student with equal timestamps is not promised. The source's comparator never returns 0, so its outcome depends on the sort implementation. The contract promises only a maximal timestamp.
- Timestamps are abstract naturals. The source stores ISO strings and compares them as strings.
- Metrics are integers. The source has JavaScript numbers, which may be fractional; the 0..100 range is documented, not enforced, so it is only the predicate `Types.MetricsInRange`.
- Lower-casing covers the ASCII letters only, and `trim` covers ASCII white space only. The source uses the full Unicode rules.
- `perfil_aprendizaje` is typed as `Modality`. An unknown string, which the source would turn into an entry mapped to `undefined`, is not modelled. Its `None` stands for an absent field only: an explicit `null` does not take the `"mixed"` default in the source and yields an object whose one key maps to `undefined` (serialised as `{}`), while the model's `None` yields the whole catalog.
- An insight field's `None` stands for an absent field only; an explicit JSON `null` is not modelled. In the source, `strengths: null` or `needs: null` is stored as `null`, since the `[]` default applies only to an absent field, while the model stores `[]`. An insight with `modality: null` is tallied in `por_estilo` under the key `"null"`, while `StyleTally.StyleKey` gives `"undefined"` for `None`.
- StyleTally.PerStyle: a tally is a `nat` rather than the source's `{ estudiantes: n }` wrapper, and the key order of the JSON object is not modelled. A modality naming an inherited property of a JavaScript object (such as `toString` or `__proto__`) is counted under its own key here; in the source, `acc[k] || …` finds the inherited value, so no such key appears in the JSON, and `__proto__` even increments a field of the shared prototype.
- GroupProfileApi.BucketOf: a modality naming an inherited property of a JavaScript object (such as `toString`) is treated as unknown, as the source intends.
- The activity id `act-<class>-<Date.now()>` takes the clock reading as a parameter. `Math.random` session ids and the debounce timer of the creation screen are left out.
- StudentChat.HandleSend: the analysis and chat services are reduced to their outcome. The model keeps whether an analysis came back and whether the chat answered (and with what text) or failed. The analysis contents, the current-analysis panel, the progress-metrics call and a failure thrown by the analysis call are left out.
- React state scheduling, effects and asynchronous ordering are left out: each screen action is one synchronous step.
- The creation screen's handling of the server response (status checks, the mock per-student list) is left out. Only the fallbacks applied to what the server returns are modelled.
- AdminUsers.LastAdminSurvives: requires unique user ids. The source's table has unique ids, but nothing enforces it, and with a shared id a delete could remove an administrator.
- The admin screen's active-user counter is the same filter-and-count as the teacher screen's status counters, and is not stated separately.
- Presentation-only and mock-data screens are left out: landing page, dashboards, metrics screens, learning-style test, registration, and the page switch in `App.tsx`.
