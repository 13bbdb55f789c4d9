/** Normal form of a list of evidence references and the completion fingerprint. */
module Evidence {
  import opened Prelude
  import opened Ordering
  import opened Model

  predicate OptLt(a: Option<nat>, b: Option<nat>) {
    match (a, b)
    case (None, Some(_)) => true
    case (Some(x), Some(y)) => x < y
    case _ => false
  }

  /** Order of the (event, artifact, hash) keys. */
  predicate KeyLt(a: EvidenceRef, b: EvidenceRef) {
    a.event < b.event
    || (a.event == b.event && OptLt(a.artifact, b.artifact))
    || (a.event == b.event && a.artifact == b.artifact && StrLt(a.sourceHash, b.sourceHash))
  }

  predicate SameKey(a: EvidenceRef, b: EvidenceRef) {
    a.event == b.event && a.artifact == b.artifact && a.sourceHash == b.sourceHash
  }

  predicate EvidenceLe(a: EvidenceRef, b: EvidenceRef) {
    KeyLt(a, b) || (SameKey(a, b) && a.asOf <= b.asOf)
  }

  function Normalize(refs: seq<EvidenceRef>): seq<EvidenceRef> {
    Dedup(SameKey, Sort(EvidenceLe, refs))
  }

  lemma KeyTrichotomy(a: EvidenceRef, b: EvidenceRef)
    ensures KeyLt(a, b) || SameKey(a, b) || KeyLt(b, a)
    ensures !(KeyLt(a, b) && KeyLt(b, a)) && !KeyLt(a, a)
    ensures SameKey(a, b) ==> !KeyLt(a, b)
  {
    StrTrichotomy(a.sourceHash, b.sourceHash);
    StrTrichotomy(a.sourceHash, a.sourceHash);
  }

  lemma KeyTransitive(a: EvidenceRef, b: EvidenceRef, c: EvidenceRef)
    requires KeyLt(a, b) && KeyLt(b, c)
    ensures KeyLt(a, c)
  {
    if StrLt(a.sourceHash, b.sourceHash) && StrLt(b.sourceHash, c.sourceHash) {
      StrTransitive(a.sourceHash, b.sourceHash, c.sourceHash);
    }
  }

  lemma EvidenceOrder()
    ensures KeyOrder(EvidenceLe, KeyLt, SameKey)
  {
    forall a, b
      ensures KeyLt(a, b) || SameKey(a, b) || KeyLt(b, a)
      ensures !(KeyLt(a, b) && KeyLt(b, a)) && !KeyLt(a, a)
      ensures SameKey(a, b) ==> !KeyLt(a, b)
      ensures EvidenceLe(a, b) || EvidenceLe(b, a)
      ensures EvidenceLe(a, b) && EvidenceLe(b, a) ==> a == b
    {
      KeyTrichotomy(a, b);
    }
    forall a, b, c
      ensures KeyLt(a, b) && KeyLt(b, c) ==> KeyLt(a, c)
      ensures EvidenceLe(a, b) && EvidenceLe(b, c) ==> EvidenceLe(a, c)
    {
      if KeyLt(a, b) && KeyLt(b, c) { KeyTransitive(a, b, c); }
    }
  }

  /** What the normal form holds: for every key, the reference with the earliest
      as-of sequence, in increasing key order. */
  lemma NormalizeMeaning(refs: seq<EvidenceRef>)
    ensures Sorted(KeyLt, Normalize(refs))
    ensures forall r :: r in Normalize(refs) <==>
                        r in refs && forall o | o in refs && SameKey(o, r) :: r.asOf <= o.asOf
    ensures Normalize(refs) == [] <==> refs == []
  {
    EvidenceOrder();
    SortSorted(EvidenceLe, refs);
    var sorted := Sort(EvidenceLe, refs);
    DedupStrict(EvidenceLe, KeyLt, SameKey, sorted);
    DedupLeast(EvidenceLe, KeyLt, SameKey, sorted);
    DedupSubset(SameKey, sorted);
    forall r | r in refs
      ensures (forall o | o in sorted && SameKey(o, r) :: EvidenceLe(r, o))
              <==> forall o | o in refs && SameKey(o, r) :: r.asOf <= o.asOf
    {
      forall o | o in refs && SameKey(o, r) ensures EvidenceLe(r, o) <==> r.asOf <= o.asOf {
        KeyTrichotomy(r, o);
      }
    }
  }

  /** The normal form depends only on which references occur, not on their order
      or on how often they do. */
  lemma NormalizeSetOnly(a: seq<EvidenceRef>, b: seq<EvidenceRef>)
    requires forall r :: r in a <==> r in b
    ensures Normalize(a) == Normalize(b)
  {
    NormalizeMeaning(a);
    NormalizeMeaning(b);
    EvidenceOrder();
    StrictlySortedUnique(KeyLt, Normalize(a), Normalize(b));
  }

  /** Normalizing twice is normalizing once. */
  lemma NormalizeIdempotent(refs: seq<EvidenceRef>)
    ensures Normalize(Normalize(refs)) == Normalize(refs)
  {
    var n := Normalize(refs);
    NormalizeMeaning(refs);
    NormalizeMeaning(n);
    EvidenceOrder();
    forall r | r in n ensures r in Normalize(n) {
      forall o | o in n && SameKey(o, r) ensures r.asOf <= o.asOf {
        assert o in refs;
      }
    }
    StrictlySortedUnique(KeyLt, Normalize(n), n);
  }

  function EventsOf(refs: seq<EvidenceRef>): (r: seq<EventId>)
    ensures |r| == |refs|
  {
    seq(|refs|, i requires 0 <= i < |refs| => refs[i].event)
  }

  function ArtifactsOf(refs: seq<EvidenceRef>): seq<ArtifactId> {
    if refs == [] then []
    else (if refs[0].artifact.Some? then [refs[0].artifact.value] else []) + ArtifactsOf(refs[1..])
  }

  function HashesOf(refs: seq<EvidenceRef>): (r: seq<string>)
    ensures |r| == |refs|
  {
    seq(|refs|, i requires 0 <= i < |refs| => refs[i].sourceHash)
  }

  function CompletionFingerprint(
    env: Env, task: TaskId, criterion: CriterionId, refs: seq<EvidenceRef>): string
  {
    env.completionDigest(task, criterion, SortIds(EventsOf(refs)), SortIds(ArtifactsOf(refs)),
                         Sort(StrLe, HashesOf(refs)))
  }
}
