/** `por_estilo` of the activity agent: how many of a class's insights carry
    each modality, keyed by the modality's spelling. */
module StyleTally {
  import opened Types
  import Lists

  /** The key an insight is counted under in `por_estilo`: its modality with
      `mixed` folded into `reading`; an absent modality becomes the key
      `undefined`, as a JavaScript property name would. */
  function StyleKey(i: Insight): string {
    match i.modality
    case Some(m) => FoldMixed(m)
    case None => "undefined"
  }

  function HasKey(k: string): Insight -> bool {
    (i: Insight) => StyleKey(i) == k
  }

  /** A tally, reading a missing key as zero. */
  function Get(m: map<string, nat>, k: string): nat {
    if k in m then m[k] else 0
  }

  /** `por_estilo`: how many insights (not students) fall under each key. */
  function PerStyle(xs: seq<Insight>): (r: map<string, nat>)
    ensures forall k :: k in r <==> exists i :: i in xs && StyleKey(i) == k
    ensures forall k :: Get(r, k) == Lists.Count(xs, HasKey(k))
  {
    if xs == [] then map[]
    else
      var rest := PerStyle(xs[1..]);
      var k := StyleKey(xs[0]);
      assert forall i :: i in xs <==> i == xs[0] || i in xs[1..];
      rest[k := Get(rest, k) + 1]
  }

  /** Insights of a known modality land under one of the four style keys. */
  predicate KnownModality(i: Insight) {
    i.modality.Some? && ParseModality(i.modality.value).Some?
  }

  lemma StyleKeyOfKnown(i: Insight)
    requires KnownModality(i)
    ensures StyleKey(i) in {"visual", "auditory", "reading", "kinesthetic"}
  {
    var m := ParseModality(i.modality.value).value;
    assert ModalityName(m) == i.modality.value;
  }

  /** For insights of a known modality, the four style keys are the only
      keys of `por_estilo`. */
  lemma PerStyleKeys(xs: seq<Insight>)
    requires forall i :: i in xs ==> KnownModality(i)
    ensures forall k :: k in PerStyle(xs) ==> k in {"visual", "auditory", "reading", "kinesthetic"}
  {
    forall k | k in PerStyle(xs) ensures k in {"visual", "auditory", "reading", "kinesthetic"} {
      var i :| i in xs && StyleKey(i) == k;
      StyleKeyOfKnown(i);
    }
  }

  /** Insights of a known modality are each counted under exactly one of
      the four style keys. */
  lemma {:induction false} FourKeysCoverAll(xs: seq<Insight>)
    requires forall i :: i in xs ==> KnownModality(i)
    ensures Lists.Count(xs, HasKey("visual")) + Lists.Count(xs, HasKey("auditory"))
            + Lists.Count(xs, HasKey("reading")) + Lists.Count(xs, HasKey("kinesthetic")) == |xs|
    decreases |xs|
  {
    if xs != [] {
      assert forall i :: i in xs[1..] ==> i in xs;
      FourKeysCoverAll(xs[1..]);
      assert xs[0] in xs;
      StyleKeyOfKnown(xs[0]);
    }
  }

  lemma TallyIsCount(xs: seq<Insight>, k: string)
    ensures Get(PerStyle(xs), k) == Lists.Count(xs, HasKey(k))
  {
  }

  /** For insights of a known modality, the four style tallies together
      count every insight. */
  lemma {:induction false} PerStyleSum(xs: seq<Insight>)
    requires forall i :: i in xs ==> KnownModality(i)
    ensures Get(PerStyle(xs), "visual") + Get(PerStyle(xs), "auditory")
            + Get(PerStyle(xs), "reading") + Get(PerStyle(xs), "kinesthetic") == |xs|
  {
    TallyIsCount(xs, "visual");
    TallyIsCount(xs, "auditory");
    TallyIsCount(xs, "reading");
    TallyIsCount(xs, "kinesthetic");
    FourKeysCoverAll(xs);
  }
}
