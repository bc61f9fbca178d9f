/** The class learning-style profile (src/pages/api/group-profile.ts): four
    per-style tallies, the number of distinct students, and a dominant style. */
module GroupProfileApi {
  import opened Wrappers
  import opened Types
  import opened Http
  import Lists
  import InsightStore

  /** The bucket an insight increments: its modality when that is present,
      not `mixed`, and one of the four bucket keys; otherwise none. */
  function BucketOf(i: Insight): (r: Option<Style>)
    ensures r.Some? <==> && i.modality.Some?
                         && ParseModality(i.modality.value).Some?
                         && ParseModality(i.modality.value).value != Mixed
    ensures r.Some? ==> ModalityName(r.value) == i.modality.value
  {
    if i.modality.None? then None else StyleNamed(i.modality.value)
  }

  function InBucket(s: Style): Insight -> bool {
    (i: Insight) => BucketOf(i) == Some(s)
  }

  function Counted(): Insight -> bool {
    (i: Insight) => BucketOf(i).Some?
  }

  function Bump(c: Counts, b: Option<Style>): Counts {
    match b
    case None => c
    case Some(Visual) => c.(visual := c.visual + 1)
    case Some(Auditory) => c.(auditory := c.auditory + 1)
    case Some(Reading) => c.(reading := c.reading + 1)
    case Some(Kinesthetic) => c.(kinesthetic := c.kinesthetic + 1)
  }

  /** The per-style tallies: each bucket counts the insights that name it, so
      the buckets together count every insight with a known non-mixed modality. */
  function Tally(xs: seq<Insight>): (c: Counts)
    ensures forall s: Style :: c.Get(s) == Lists.Count(xs, InBucket(s))
    ensures c.Sum() == Lists.Count(xs, Counted())
  {
    if xs == [] then Counts(0, 0, 0, 0)
    else Bump(Tally(xs[1..]), BucketOf(xs[0]))
  }

  /** The distinct students among `xs`. */
  function Students(xs: seq<Insight>): (r: set<string>)
    ensures forall s :: s in r <==> exists i :: i in xs && i.studentId == s
  {
    if xs == [] then {}
    else
      assert forall i :: i in xs <==> i == xs[0] || i in xs[1..];
      {xs[0].studentId} + Students(xs[1..])
  }

  /** One `[key, count]` pair of `Object.entries(counts)`. */
  datatype Entry = Entry(key: Style, count: nat)

  /** `Object.entries(counts)`: the buckets in declaration order. */
  function Entries(c: Counts): (r: seq<Entry>)
    ensures |r| == 4
  {
    [Entry(Visual, c.visual), Entry(Auditory, c.auditory), Entry(Reading, c.reading),
     Entry(Kinesthetic, c.kinesthetic)]
  }

  /** Counts never increase from one entry to the next. */
  ghost predicate SortedDesc(xs: seq<Entry>) {
    forall a :: 0 <= a < |xs| - 1 ==> xs[a].count >= xs[a + 1].count
  }

  /** Places `e`, which came before every element of `ys`, ahead of the first
      element whose count does not exceed its own. */
  function Insert(e: Entry, ys: seq<Entry>): (r: seq<Entry>)
    ensures multiset(r) == multiset(ys) + multiset{e}
    ensures |r| == |ys| + 1
    ensures r[0] == (if ys == [] || ys[0].count <= e.count then e else ys[0])
  {
    if ys == [] || ys[0].count <= e.count then [e] + ys
    else
      assert ys == [ys[0]] + ys[1..];
      [ys[0]] + Insert(e, ys[1..])
  }

  /** Inserting into a sorted list keeps it sorted. */
  lemma {:induction false} InsertSorted(e: Entry, ys: seq<Entry>)
    requires SortedDesc(ys)
    ensures SortedDesc(Insert(e, ys))
    decreases |ys|
  {
    if ys != [] && ys[0].count > e.count {
      var rest := Insert(e, ys[1..]);
      InsertSorted(e, ys[1..]);
      assert Insert(e, ys) == [ys[0]] + rest;
      assert ys[0].count >= rest[0].count;
    }
  }

  /** A stable sort by descending count, as `sort((a, b) => b[1] - a[1])`
      performs it: entries with equal counts keep their relative order. */
  function SortByCountDesc(xs: seq<Entry>): (r: seq<Entry>)
    ensures multiset(r) == multiset(xs)
    ensures |r| == |xs|
    ensures SortedDesc(r)
  {
    if xs == [] then []
    else
      assert xs == [xs[0]] + xs[1..];
      var rest := SortByCountDesc(xs[1..]);
      InsertSorted(xs[0], rest);
      Insert(xs[0], rest)
  }

  /** Index `k` holds the first of the largest counts in `xs`. */
  ghost predicate IsFirstMax(xs: seq<Entry>, k: int) {
    && 0 <= k < |xs|
    && (forall j :: 0 <= j < |xs| ==> xs[j].count <= xs[k].count)
    && (forall j :: 0 <= j < k ==> xs[j].count < xs[k].count)
  }

  /** Stability at work: the sort's head is the first entry with the
      largest count; `k` is its index. */
  lemma {:induction false} SortHeadIsFirstMax(xs: seq<Entry>) returns (k: int)
    requires xs != []
    ensures IsFirstMax(xs, k) && SortByCountDesc(xs)[0] == xs[k]
    decreases |xs|
  {
    var tail := xs[1..];
    if tail == [] {
      k := 0;
    } else {
      var k' := SortHeadIsFirstMax(tail);
      var head := SortByCountDesc(tail)[0];
      assert SortByCountDesc(xs)[0] == Insert(xs[0], SortByCountDesc(tail))[0];
      k := if head.count <= xs[0].count then 0 else k' + 1;
      FirstMaxOfCons(xs, k');
    }
  }

  /** The first maximum of `xs` from the first maximum of its tail. */
  lemma FirstMaxOfCons(xs: seq<Entry>, k': int)
    requires |xs| >= 2 && IsFirstMax(xs[1..], k')
    ensures xs[1..][k'].count <= xs[0].count ==> IsFirstMax(xs, 0)
    ensures xs[1..][k'].count > xs[0].count ==> IsFirstMax(xs, k' + 1)
  {
    assert forall j :: 1 <= j < |xs| ==> xs[j] == xs[1..][j - 1];
  }

  /** Position of a style in the bucket order. */
  function Rank(s: Style): nat {
    match s
    case Visual => 0
    case Auditory => 1
    case Reading => 2
    case Kinesthetic => 3
  }

  /** `mixed` when every bucket is empty; otherwise the head of the sorted
      entries: a style with the largest count, the earliest one in bucket
      order among equals. */
  function Dominant(c: Counts): (d: Modality)
    ensures d == Mixed <==> c.Sum() == 0
    ensures d != Mixed ==> forall s: Style :: c.Get(s) <= c.Get(d)
    ensures d != Mixed ==> forall s: Style :: Rank(s) < Rank(d) ==> c.Get(s) < c.Get(d)
  {
    var head := SortByCountDesc(Entries(c))[0];
    SortedHead(c);
    assert c.Get(Visual) <= head.count && c.Get(Auditory) <= head.count;
    assert c.Get(Reading) <= head.count && c.Get(Kinesthetic) <= head.count;
    if head.count == 0 then Mixed else head.key
  }

  /** The head of the sorted entries, read back in terms of the buckets. */
  lemma SortedHead(c: Counts)
    ensures var h := SortByCountDesc(Entries(c))[0];
      && h.count == c.Get(h.key)
      && (forall s: Style :: c.Get(s) <= h.count)
      && (forall s: Style :: Rank(s) < Rank(h.key) ==> c.Get(s) < h.count)
  {
    var entries := Entries(c);
    var k := SortHeadIsFirstMax(entries);
    EntryAt(c, k);
    forall s: Style ensures c.Get(s) <= entries[k].count
      && (Rank(s) < k ==> c.Get(s) < entries[k].count)
    {
      StyleAt(c, s);
    }
  }

  /** Each style sits in the bucket list at its rank. */
  lemma StyleAt(c: Counts, s: Style)
    ensures Entries(c)[Rank(s)] == Entry(s, c.Get(s))
  {
  }

  /** Entry `k` of the bucket list is the style of rank `k` with its count. */
  lemma EntryAt(c: Counts, k: int)
    requires 0 <= k < 4
    ensures Rank(Entries(c)[k].key) == k
    ensures Entries(c)[k].count == c.Get(Entries(c)[k].key)
  {
  }

  /** The profile of a class whose insights are `xs`. */
  function ProfileOf(xs: seq<Insight>): (p: GroupProfile)
    ensures p.total == |Students(xs)|
    ensures forall s: Style :: p.counts.Get(s) == Lists.Count(xs, InBucket(s))
    ensures p.counts.Sum() == Lists.Count(xs, Counted())
    ensures p.dominant == Mixed <==> p.counts.Sum() == 0
    ensures p.dominant != Mixed ==> forall s: Style :: p.counts.Get(s) <= p.counts.Get(p.dominant)
    ensures p.dominant != Mixed ==> forall s: Style :: Rank(s) < Rank(p.dominant)
                                                     ==> p.counts.Get(s) < p.counts.Get(p.dominant)
  {
    var counts := Tally(xs);
    GroupProfile(|Students(xs)|, counts, Dominant(counts))
  }

  datatype Reply = Profile(profile: GroupProfile) | BadRequest(message: string)

  /** Serves `?classId=`: 400 when it is missing or empty, otherwise the
      profile of that class's stored insights. Nothing is written. */
  function Handle(store: InsightStore.Store, classId: Option<string>): (r: Reply)
    ensures r.BadRequest? <==> !Truthy(classId)
    ensures r.Profile? ==> r.profile == ProfileOf(InsightStore.ByClass(store, classId.value))
  {
    if !Truthy(classId) then BadRequest("Falta classId")
    else Profile(ProfileOf(InsightStore.ByClass(store, classId.value)))
  }

  /** The profile does not depend on the order in which insights are listed. */
  lemma ProfileIgnoresOrder(xs: seq<Insight>, ys: seq<Insight>)
    requires multiset(xs) == multiset(ys)
    ensures ProfileOf(xs) == ProfileOf(ys)
  {
    SameStudents(xs, ys);
    SameTally(xs, ys);
  }

  /** Reordering a list keeps its set of students. */
  lemma SameStudents(xs: seq<Insight>, ys: seq<Insight>)
    requires multiset(xs) == multiset(ys)
    ensures Students(xs) == Students(ys)
  {
    forall i ensures i in xs <==> i in ys {
      assert i in xs <==> i in multiset(xs);
      assert i in ys <==> i in multiset(ys);
    }
  }

  /** Reordering a list keeps its tallies. */
  lemma SameTally(xs: seq<Insight>, ys: seq<Insight>)
    requires multiset(xs) == multiset(ys)
    ensures Tally(xs) == Tally(ys)
  {
    forall s: Style ensures Tally(xs).Get(s) == Tally(ys).Get(s) {
      Lists.CountPermutation(xs, ys, InBucket(s));
    }
    SameBuckets(Tally(xs), Tally(ys));
  }

  /** Tallies that agree on every bucket are equal. */
  lemma SameBuckets(c: Counts, d: Counts)
    requires forall s: Style :: c.Get(s) == d.Get(s)
    ensures c == d
  {
    assert c.Get(Visual) == d.Get(Visual) && c.Get(Auditory) == d.Get(Auditory);
    assert c.Get(Reading) == d.Get(Reading) && c.Get(Kinesthetic) == d.Get(Kinesthetic);
  }

  /** A class whose insights are all `mixed` has empty buckets and a `mixed`
      dominant style (its students still make up the total). */
  lemma AllMixedClass(xs: seq<Insight>)
    requires forall i :: i in xs ==> i.modality == Some("mixed")
    ensures Tally(xs) == Counts(0, 0, 0, 0)
    ensures ProfileOf(xs).dominant == Mixed
  {
    var c := Tally(xs);
    MixedNeverCounted(xs, Visual);
    MixedNeverCounted(xs, Auditory);
    MixedNeverCounted(xs, Reading);
    MixedNeverCounted(xs, Kinesthetic);
    assert c.Get(Visual) == 0 && c.Get(Auditory) == 0;
    assert c.Get(Reading) == 0 && c.Get(Kinesthetic) == 0;
  }

  lemma {:induction false} MixedNeverCounted(xs: seq<Insight>, s: Style)
    requires forall i :: i in xs ==> i.modality == Some("mixed")
    ensures Lists.Count(xs, InBucket(s)) == 0
    decreases |xs|
  {
    if xs != [] {
      assert xs[0] in xs;
      assert forall i :: i in xs[1..] ==> i in xs;
      MixedNeverCounted(xs[1..], s);
    }
  }
}
