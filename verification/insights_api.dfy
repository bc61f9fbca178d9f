/** The insight intake route (src/pages/api/insights.ts): POST records one
    insight, GET lists a class's insights, anything else is refused. */
module InsightsApi {
  import opened Wrappers
  import opened Types
  import opened Http
  import InsightStore

  /** A POST body; every field may be missing. */
  datatype PostBody = PostBody(
    classId: Option<string>,
    studentId: Option<string>,
    modality: Option<string>,
    level: Option<string>,
    strengths: Option<seq<string>>,
    needs: Option<seq<string>>,
    recentTopic: Option<string>,
    metrics: Option<Metrics>)

  /** What a missing body reads as (`req.body || {}`). */
  const EmptyBody := PostBody(None, None, None, None, None, None, None, None)

  datatype Request = Request(verb: Method, body: Option<PostBody>, queryClassId: Option<string>)

  datatype Reply =
    | Created(id: string)
    | Listed(insights: seq<Insight>)
    | BadRequest(message: string)
    | MethodNotAllowed

  function StatusOf(r: Reply): int {
    match r
    case Created(_) => 201
    case Listed(_) => 200
    case BadRequest(_) => 400
    case MethodNotAllowed => 405
  }

  const MissingIds := "classId y studentId requeridos"
  const MissingClass := "Falta classId"

  /** The store input a valid body becomes: lists default to empty, every
      other field passes through as sent. */
  function Intake(b: PostBody): InsightStore.NewInsight
    requires Truthy(b.classId) && Truthy(b.studentId)
  {
    InsightStore.NewInsight(b.classId.value, b.studentId.value, b.modality, b.level,
                            b.strengths.GetOr([]), b.needs.GetOr([]), b.recentTopic, b.metrics)
  }

  /** Serves one request against `store`; returns the reply and the store
      afterwards. `newId` and `now` are what the store assigns to a new insight. */
  function Handle(store: InsightStore.Store, req: Request, newId: string, now: nat): (r: (Reply, InsightStore.Store))
    // POST without both identifiers: 400 and nothing recorded.
    ensures req.verb == Post
            && !(Truthy(req.body.GetOr(EmptyBody).classId) && Truthy(req.body.GetOr(EmptyBody).studentId))
            ==> r.0 == BadRequest(MissingIds) && r.1 == store
    // A valid POST: 201 with the new id, and exactly one insight appended.
    ensures req.verb == Post
            && Truthy(req.body.GetOr(EmptyBody).classId) && Truthy(req.body.GetOr(EmptyBody).studentId)
            ==> var b := req.body.GetOr(EmptyBody);
                && r.0 == Created(newId) && StatusOf(r.0) == 201
                && |r.1| == |store| + 1 && r.1[..|store|] == store
                && r.1[|store|].id == newId && r.1[|store|].createdAt == now
                && r.1[|store|].classId == b.classId.value
                && r.1[|store|].studentId == b.studentId.value
                && r.1[|store|].modality == b.modality && r.1[|store|].level == b.level
                && r.1[|store|].recentTopic == b.recentTopic && r.1[|store|].metrics == b.metrics
                && r.1[|store|].strengths == (if b.strengths.Some? then b.strengths.value else [])
                && r.1[|store|].needs == (if b.needs.Some? then b.needs.value else [])
    // GET: 400 without a class, otherwise that class's insights; never a write.
    ensures req.verb == Get ==> r.1 == store
    ensures req.verb == Get && !Truthy(req.queryClassId) ==> r.0 == BadRequest(MissingClass)
    ensures req.verb == Get && Truthy(req.queryClassId)
            ==> r.0 == Listed(InsightStore.ByClass(store, req.queryClassId.value)) && StatusOf(r.0) == 200
                && forall i :: i in r.0.insights <==> i in store && i.classId == req.queryClassId.value
    // Any other method: 405 and no write.
    ensures req.verb.OtherMethod? ==> r == (MethodNotAllowed, store)
  {
    match req.verb
    case Post =>
      var b := req.body.GetOr(EmptyBody);
      if !Truthy(b.classId) || !Truthy(b.studentId) then (BadRequest(MissingIds), store)
      else
        var (store', created) := InsightStore.Append(store, Intake(b), newId, now);
        (Created(created.id), store')
    case Get =>
      if !Truthy(req.queryClassId) then (BadRequest(MissingClass), store)
      else (Listed(InsightStore.ByClass(store, req.queryClassId.value)), store)
    case OtherMethod(_) => (MethodNotAllowed, store)
  }

  /** Two reads with no write in between return the same listing. */
  lemma ReadsAreRepeatable(store: InsightStore.Store, classId: string, id1: string, id2: string, t1: nat, t2: nat)
    requires classId != ""
    ensures var get := Request(Get, None, Some(classId));
      var (first, store1) := Handle(store, get, id1, t1);
      var (second, _) := Handle(store1, get, id2, t2);
      first == second && first == Listed(InsightStore.ByClass(store, classId))
  {
  }
}
