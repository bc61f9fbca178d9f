/** The insight store behind the intake route. The repository module that
    implements it is not part of this model; it is modelled as an
    append-only sequence whose id and timestamp assignment are inputs. */
module InsightStore {
  import opened Wrappers
  import opened Types
  import Lists

  /** All insights ever recorded, oldest first. */
  type Store = seq<Insight>

  /** An insight as submitted, before the store stamps it. */
  datatype NewInsight = NewInsight(
    classId: string,
    studentId: string,
    modality: Option<string>,
    level: Option<string>,
    strengths: seq<string>,
    needs: seq<string>,
    recentTopic: Option<string>,
    metrics: Option<Metrics>)

  /** `stored` is `input` with nothing changed but an id and a timestamp added. */
  ghost predicate Carries(input: NewInsight, stored: Insight) {
    && stored.classId == input.classId
    && stored.studentId == input.studentId
    && stored.modality == input.modality
    && stored.level == input.level
    && stored.strengths == input.strengths
    && stored.needs == input.needs
    && stored.recentTopic == input.recentTopic
    && stored.metrics == input.metrics
  }

  /** Records one insight: the store grows by exactly that insight at its end. */
  function Append(store: Store, input: NewInsight, id: string, createdAt: nat): (r: (Store, Insight))
    ensures r.0 == store + [r.1]
    ensures Carries(input, r.1) && r.1.id == id && r.1.createdAt == createdAt
  {
    var stored := Insight(id, input.classId, input.studentId, createdAt, input.modality,
                          input.level, input.strengths, input.needs, input.recentTopic,
                          input.metrics);
    (store + [stored], stored)
  }

  /** All insights of one class, in insertion order. */
  function ByClass(store: Store, classId: string): (r: seq<Insight>)
    ensures forall i :: i in r <==> i in store && i.classId == classId
    ensures Lists.IsSubsequence(r, store)
    ensures |r| == Lists.Count(store, (i: Insight) => i.classId == classId)
  {
    Lists.Filter(store, (i: Insight) => i.classId == classId)
  }

  /** Appending changes a class's listing only by the new insight, and only
      when it belongs to that class. */
  lemma AppendThenList(store: Store, input: NewInsight, id: string, createdAt: nat, classId: string)
    ensures var (store', stored) := Append(store, input, id, createdAt);
      ByClass(store', classId)
        == ByClass(store, classId) + (if input.classId == classId then [stored] else [])
  {
    var (store', stored) := Append(store, input, id, createdAt);
    var p := (i: Insight) => i.classId == classId;
    Lists.FilterAppend(store, [stored], p);
    assert Lists.Filter([stored], p) == (if p(stored) then [stored] else []) by {
      assert [stored][1..] == [];
    }
  }

  /** The most recent insight of a student: one with the greatest timestamp,
      the later-inserted one among equal timestamps. */
  function Latest(xs: seq<Insight>, studentId: string): (r: Option<Insight>)
    ensures r.None? <==> forall i :: i in xs ==> i.studentId != studentId
    ensures r.Some? ==> && r.value in xs
                        && r.value.studentId == studentId
                        && forall i :: i in xs && i.studentId == studentId
                                       ==> i.createdAt <= r.value.createdAt
  {
    if xs == [] then None
    else
      var init := xs[..|xs| - 1];
      var last := xs[|xs| - 1];
      assert xs == init + [last];
      var prev := Latest(init, studentId);
      if last.studentId != studentId then prev
      else if prev.Some? && prev.value.createdAt > last.createdAt then prev
      else Some(last)
  }

  /** When timestamps grow with insertion, the insight just appended for a
      student is that student's latest one. */
  lemma LatestAfterAppend(store: Store, input: NewInsight, id: string, createdAt: nat)
    requires forall i :: i in store ==> i.createdAt <= createdAt
    ensures Latest(Append(store, input, id, createdAt).0, input.studentId)
            == Some(Append(store, input, id, createdAt).1)
  {
    var (store', stored) := Append(store, input, id, createdAt);
    assert store'[..|store'| - 1] == store;
  }
}
