/** Finding events in the ledger by identifier or by the artifact they created. */
module Lookup {
  import opened Prelude
  import opened Model
  import opened Projector

  /** Sequence of the first event with this identifier. */
  function FindEvent(ledger: seq<Event>, id: EventId): (r: Option<nat>)
    ensures r.Some? ==> 1 <= r.value <= |ledger| && ledger[r.value - 1].id == id
  {
    match IndexOf(Ids(ledger), id)
    case None => None
    case Some(i) => Some(i + 1)
  }

  function FindArtifactCreated(ledger: seq<Event>, artifact: ArtifactId): Option<nat> {
    if ledger == [] then None
    else
      match FindArtifactCreated(ledger[..|ledger| - 1], artifact)
      case Some(n) => Some(n)
      case None =>
        var e := ledger[|ledger| - 1];
        if e.body.ArtifactCreated? && SubjectIs(e, EntityKind.Artifact, artifact) then Some(|ledger|) else None
  }

  /** The first occurrence stays where it is as the ledger grows. */
  lemma FindEventGrows(ledger: seq<Event>, more: seq<Event>, id: EventId)
    requires FindEvent(ledger, id).Some?
    ensures FindEvent(ledger + more, id) == FindEvent(ledger, id)
  {
    assert Ids(ledger + more) == Ids(ledger) + Ids(more);
    IndexOfPrefix(Ids(ledger), Ids(ledger + more), id);
  }

  lemma {:induction false} FindArtifactGrows(ledger: seq<Event>, more: seq<Event>, artifact: ArtifactId)
    requires FindArtifactCreated(ledger, artifact).Some?
    ensures FindArtifactCreated(ledger + more, artifact) == FindArtifactCreated(ledger, artifact)
  {
    if more == [] {
      assert ledger + more == ledger;
    } else {
      FindArtifactGrows(ledger, more[..|more| - 1], artifact);
      assert (ledger + more)[..|ledger + more| - 1] == ledger + more[..|more| - 1];
    }
  }
}
