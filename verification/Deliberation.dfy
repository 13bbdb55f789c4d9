/** Lifecycle rules for Positions and Conflicts. */
module Deliberation {
  import opened Prelude
  import opened Model

  /** A Position may be kept or retracted in place, opened at version one, or
      opened as the successor of an active one. */
  predicate ValidPositionRevision(s: State, p: Position) {
    if p.id in s.positions then
      var previous := s.positions[p.id];
      && p.supersedes.None?
      && p.version == previous.version
      && p.principal == previous.principal
      && p.subject == previous.subject
      && p.stance == previous.stance
      && (p.status.Active? || p.status.Retracted?)
    else
      match p.supersedes
      case None => p.version == 1 && p.status.Active?
      case Some(prior) =>
        && prior in s.positions
        && s.positions[prior].status.Active?
        && s.positions[prior].principal == p.principal
        && s.positions[prior].subject == p.subject
        && p.version == SatAddU32(s.positions[prior].version, 1)
        && p.status.Active?
  }

  predicate ValidConflictTransition(previous: ConflictStatus, next: ConflictStatus) {
    match previous
    case Open => true
    case Negotiating => !next.Open?
    case Resolved => false
    case AcceptedDisagreement => false
  }

  predicate PositionIntegrationBlocked(
    env: Env, s: State, principal: PrincipalId, subject: string, target: Option<PositionId>)
  {
    var key := env.normalize(subject);
    || (exists id | id in s.positions ::
          var p := s.positions[id];
          && p.principal == principal
          && p.status.Active?
          && Some(p.id) != target
          && env.normalize(p.subject) == key)
    || (exists id | id in s.conflicts ::
          var c := s.conflicts[id];
          && Unresolved(c.status)
          && (env.normalize(c.subject) == key
              || (target.Some? && target.value in c.participants)))
  }
}
