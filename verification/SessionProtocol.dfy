/**
  The durable session protocol for one entity: handlePostSessions and handleDeleteSessions
  (packages/eliza-service/src/handlers/sessions.ts), HeldSessions.desired and HeldSessions.restore
  (packages/eliza-service/src/held-sessions.ts), over the SessionStore slot and the DelegationStore
  lane of that entity.

  A step is what runs between two awaits. Any number of POSTs, DELETEs and retries, and one reload,
  interleave; the process may crash at any step and restart with an empty memory.
 */
module SessionProtocol {
  import opened Options
  import opened SessionStores
  import opened DelegationStores

  /** A connection: the two delegations and the room; their expiries are functions of the delegations. */
  datatype Grant = Grant(memory: string, transcripts: Option<string>, roomId: Option<string>)

  /** A stored record. Unreadable is one that parseHeldSession refuses. */
  datatype Held = ActiveHeld(revision: Revision, grant: Grant) | RevokedHeld(revision: Revision, marks: Marks) | Unreadable

  /** HeldSessions.desired. */
  function Desired(slot: Slot<Grant>): Want<Held> {
    if slot.access.None? then Keep
    else
      var current := slot.access.value;
      match current.state
      case Active =>
        if current.record.Some? && current.record.value.transcripts.Some? then Put(ActiveHeld(current.revision, current.record.value)) else Keep
      case Activating =>
        if slot.StagedNow().Some? then Put(ActiveHeld(slot.StagedNow().value.revision, slot.StagedNow().value.record)) else Keep
      case Revoked =>
        Put(RevokedHeld(current.revision, if current.marks.Some? then current.marks.value else Marks(None, 0)))
      case Restoring => Keep
      case NoAccess => Delete
      case Disconnected => Delete
  }

  datatype PostAnswer = Confirmed(revision: Revision, grant: Grant) | Stale | Unavailable

  datatype Post =
    | Activation(lease: Revision, grant: Grant)
    | Activated(lease: Revision, grant: Grant)
    | Syncing(lease: Revision, grant: Grant, ticket: nat)
    | Detaching
    | PostAnswered(answer: PostAnswer)
  {
    /** Still holding the lease it reserved. */
    predicate Holding() { Activation? || Activated? || Syncing? }
  }

  datatype Removal = Removing(revision: Revision, ticket: nat) | RemovalAnswered(confirmed: bool)

  datatype Phase = Booting | Ready | Halted

  datatype Reload =
    | Idle
    | Fetching(lease: Option<Revision>)
    | Fetched(lease: Option<Revision>, value: Option<Held>)
    | Reactivating(own: Revision, grant: Grant)
    | Failing(own: Revision, grant: Grant, failure: Failure)

  /** How the node or the policy refused a reactivation. */
  datatype Failure = NodeRevoked | GrantExpired | PolicyRejected | NodeError

  /** What the checks of a stored active record conclude at the moment it is read. */
  datatype Verdict = RetentionOver | Lapsed | Refused | Accepted

  datatype Sys = Sys(
    slot: Slot<Grant>,
    lane: Lane<Held>,
    phase: Phase,
    pending: bool,
    lease: Option<Revision>,
    reload: Reload,
    posts: map<nat, Post>,
    removals: map<nat, Removal>)

  datatype Outcome = Succeeds | Superseded | Throws

  datatype Step =
    | Touch                                                  // any reader of snapshot() or lease()
    | Elsewhere                                              // another entity draws a revision
    | PostStart(id: nat, expected: Revision, grant: Grant)
    | PostActivates(id: nat, outcome: Outcome)
    | PostStages(id: nat)
    | PostResumes(id: nat)
    | PostDetaches(id: nat)
    | DeleteStart(id: nat)
    | DeleteAnswers(id: nat, detached: bool)
    | WriteBegins(ticket: nat)
    | WriteLands(ticket: nat)
    | WriteFinishes(ticket: nat, ok: bool)
    | QueueCleans(ticket: nat)
    | RetryFires(timer: nat)
    | StoreStops
    | IndexLoads(listed: bool)
    | ReloadBegins
    | ReloadReads
    | ReloadReadFails
    | ReloadDecides(verdict: Verdict)
    | ReloadActivates(outcome: Outcome, failure: Failure)
    | ReloadDetaches(marks: Marks)
    | HeldStops
    | Crash(instance: nat)

  // ── Handlers ───────────────────────────────────────────────────────────────

  /** HeldSessions.settle: also what forget() does when a POST or DELETE arrives. */
  function Settle(s: Sys): Sys {
    s.(pending := false, lease := None, slot := if s.lease.Some? then s.slot.AbandonRestore(s.lease.value) else s.slot)
  }

  function StartPost(s: Sys, id: nat, expected: Revision, grant: Grant): Sys {
    var (slot, lease) := s.slot.Reserve(Some(expected));
    if lease.None? then s.(slot := slot, posts := s.posts[id := PostAnswered(Stale)])
    else Settle(s.(slot := slot)).(posts := s.posts[id := Activation(lease.value, grant)])
  }

  /** The catch block of a POST: publish "none", then answer 503 after the detach. */
  function FailPost(s: Sys, id: nat, lease: Revision): Sys {
    if !s.slot.Current(lease) then s.(posts := s.posts[id := PostAnswered(Stale)])
    else s.(slot := s.slot.Fail(lease), lane := s.lane.Sync().0, posts := s.posts[id := Detaching])
  }

  function ActivatePost(s: Sys, id: nat, outcome: Outcome): Sys
    requires id in s.posts && s.posts[id].Activation?
  {
    match outcome
    case Succeeds => s.(posts := s.posts[id := Activated(s.posts[id].lease, s.posts[id].grant)])
    case Superseded => s.(posts := s.posts[id := PostAnswered(Stale)])
    case Throws => FailPost(s, id, s.posts[id].lease)
  }

  function StagePost(s: Sys, id: nat): Sys
    requires id in s.posts && s.posts[id].Activated?
  {
    var p := s.posts[id];
    var (slot, ok) := s.slot.Stage(p.lease, p.grant);
    if !ok then s.(posts := s.posts[id := PostAnswered(Stale)])
    else
      var (lane, ticket) := s.lane.Sync();
      s.(slot := slot, lane := lane, posts := s.posts[id := Syncing(p.lease, p.grant, ticket)])
  }

  function ResumePost(s: Sys, id: nat): Sys
    requires id in s.posts && s.posts[id].Syncing? && s.lane.Answer(s.posts[id].ticket).Some?
  {
    var p := s.posts[id];
    if !s.slot.Current(p.lease) then s.(posts := s.posts[id := PostAnswered(Stale)])
    else if !s.lane.Answer(p.ticket).value then FailPost(s, id, p.lease)
    else
      var (slot, ok) := s.slot.Commit(p.lease, p.grant);
      s.(slot := slot, posts := s.posts[id := PostAnswered(if ok then Confirmed(p.lease, p.grant) else Stale)])
  }

  function StartDelete(s: Sys, id: nat): Sys {
    var gone := Settle(s.(slot := s.slot.Disconnect()));
    var (lane, ticket) := gone.lane.Sync();
    gone.(lane := lane, removals := s.removals[id := Removing(s.slot.Fresh(), ticket)])
  }

  // ── Reload ─────────────────────────────────────────────────────────────────

  function ReloadDone(s: Sys): Sys { Settle(s).(reload := Idle) }

  /** A retry keeps the lease; the backoff timer starts the next attempt. */
  function ReloadRetries(s: Sys): Sys {
    if s.phase.Ready? && s.pending then s.(reload := Idle) else ReloadDone(s)
  }

  function BeginReload(s: Sys): Sys {
    if (if s.lease.Some? then !s.slot.Current(s.lease.value) else s.slot.Known()) then ReloadDone(s)
    else s.(reload := Fetching(s.lease))
  }

  /** The continuation of restore() after the read. */
  function Decide(s: Sys, verdict: Verdict): Sys
    requires s.reload.Fetched?
  {
    var lease, value := s.reload.lease, s.reload.value;
    if (if lease.Some? then !s.slot.Current(lease.value) else s.slot.Known()) || value.None? || value.value.Unreadable? then ReloadDone(s)
    else
      var held := value.value;
      var begun := if lease.Some? then s else s.(slot := s.slot.BeginRestore(held.revision).0, lease := Some(held.revision));
      var own := if lease.Some? then lease.value else held.revision;
      if verdict.RetentionOver? then
        ReloadDone(begun.(slot := begun.slot.AbandonRestore(own), lease := None, lane := begun.lane.Sync().0))
      else if held.RevokedHeld? then
        ReloadDone(begun.(slot := begun.slot.Tombstone(own, held.marks).0, lease := None))
      else match verdict
        case Lapsed => ReloadDone(begun.(slot := begun.slot.Restore(own, held.grant).0, lease := None))
        case Refused => ReloadDone(begun.(slot := begun.slot.AbandonRestore(own), lease := None))
        case Accepted => begun.(reload := Reactivating(own, held.grant))
  }

  /** After activateBundle: a failure first detaches the candidates, at an await. */
  function ActivateReload(s: Sys, outcome: Outcome, failure: Failure): Sys
    requires s.reload.Reactivating?
  {
    var own, grant := s.reload.own, s.reload.grant;
    match outcome
    case Superseded => ReloadDone(s)
    case Throws => if s.slot.Current(own) then s.(reload := Failing(own, grant, failure)) else ReloadDone(s)
    case Succeeds =>
      var (slot, ok) := s.slot.Restore(own, grant);
      ReloadDone(s.(slot := slot, lease := if ok then None else s.lease))
  }

  function DetachReload(s: Sys, marks: Marks): Sys
    requires s.reload.Failing?
  {
    var own := s.reload.own;
    if !s.slot.Current(own) then ReloadDone(s)
    else match s.reload.failure
      case NodeRevoked =>
        ReloadDone(s.(slot := s.slot.Tombstone(own, marks).0, lease := None, lane := s.lane.Sync().0))
      case GrantExpired => ReloadDone(s.(slot := s.slot.Restore(own, s.reload.grant).0, lease := None))
      case PolicyRejected => ReloadDone(s.(slot := s.slot.AbandonRestore(own), lease := None))
      case NodeError => ReloadRetries(s)
  }

  // ── The system ─────────────────────────────────────────────────────────────

  const EMPTY := Timers(map[], 0)

  /** A process that has just started over what the space holds. */
  function Boot(instance: nat, stored: Option<Held>): Sys {
    Sys(Slot(instance, 0, None, None), Lane(stored, None, [], EMPTY, false), Booting, false, None, Idle, map[], map[])
  }

  predicate Enabled(s: Sys, step: Step) {
    match step
    case Touch => true
    case Elsewhere => true
    case PostStart(id, _, grant) => id !in s.posts && grant.transcripts.Some?
    case PostActivates(id, outcome) =>
      id in s.posts && s.posts[id].Activation? && (outcome.Superseded? ==> !s.slot.Current(s.posts[id].lease))
    case PostStages(id) => id in s.posts && s.posts[id].Activated?
    case PostResumes(id) => id in s.posts && s.posts[id].Syncing? && s.lane.Answer(s.posts[id].ticket).Some?
    case PostDetaches(id) => id in s.posts && s.posts[id].Detaching?
    case DeleteStart(id) => id !in s.removals
    case DeleteAnswers(id, _) => id in s.removals && s.removals[id].Removing? && s.lane.Answer(s.removals[id].ticket).Some?
    case WriteBegins(t) => s.lane.CanBegin(t)
    case WriteLands(t) => s.lane.CanLand(t)
    case WriteFinishes(t, ok) => s.lane.CanFinish(t, ok)
    case QueueCleans(t) => s.lane.CanClean(t)
    case RetryFires(timer) => timer in s.lane.timers.armed
    case StoreStops => true
    case IndexLoads(_) => s.phase.Booting?
    case ReloadBegins => s.pending && s.reload.Idle?
    case ReloadReads => s.reload.Fetching?
    case ReloadReadFails => s.reload.Fetching?
    case ReloadDecides(_) => s.reload.Fetched?
    case ReloadActivates(outcome, _) =>
      s.reload.Reactivating? && (outcome.Superseded? ==> !s.slot.Current(s.reload.own))
    case ReloadDetaches(_) => s.reload.Failing?
    case HeldStops => true
    case Crash(instance) => instance > s.slot.instance
  }

  /** The steps of a POST or a DELETE. */
  predicate IsHandler(step: Step) {
    step.PostStart? || step.PostActivates? || step.PostStages? || step.PostResumes? || step.PostDetaches? || step.DeleteStart? || step.DeleteAnswers?
  }

  /** The steps that are about one write or one timer of the lane. */
  predicate IsWrite(step: Step) {
    step.WriteBegins? || step.WriteLands? || step.WriteFinishes? || step.QueueCleans? || step.RetryFires? || step.StoreStops?
  }

  predicate IsReload(step: Step) {
    step.ReloadBegins? || step.ReloadReads? || step.ReloadReadFails? || step.ReloadDecides? || step.ReloadActivates? || step.ReloadDetaches?
  }

  function Next(s: Sys, step: Step): Sys
    requires Enabled(s, step)
  {
    match step
    case Touch => s.(slot := s.slot.Snap())
    case Elsewhere => s.(slot := s.slot.(sequence := s.slot.sequence + 1))
    case PostStart(id, expected, grant) => StartPost(s, id, expected, grant)
    case PostActivates(id, outcome) => ActivatePost(s, id, outcome)
    case PostStages(id) => StagePost(s, id)
    case PostResumes(id) => ResumePost(s, id)
    case PostDetaches(id) => s.(posts := s.posts[id := PostAnswered(Unavailable)])
    case DeleteStart(id) => StartDelete(s, id)
    case DeleteAnswers(id, detached) =>
      s.(removals := s.removals[id := RemovalAnswered(s.lane.Answer(s.removals[id].ticket).value && detached)])
    case WriteBegins(t) => s.(lane := s.lane.Begin(t, Desired(s.slot)))
    case WriteLands(t) => s.(lane := s.lane.Land(t))
    case WriteFinishes(t, ok) => s.(lane := s.lane.Finish(t, ok))
    case QueueCleans(t) => s.(lane := s.lane.Clean(t))
    case RetryFires(timer) => s.(lane := s.lane.Fire(timer))
    case StoreStops => s.(lane := s.lane.Stop())
    case IndexLoads(listed) => s.(phase := Ready, pending := listed && !s.slot.Known())
    case ReloadBegins => BeginReload(s)
    case ReloadReads => s.(reload := Fetched(s.reload.lease, s.lane.stored))
    case ReloadReadFails => ReloadRetries(s)
    case ReloadDecides(verdict) => Decide(s, verdict)
    case ReloadActivates(outcome, failure) => ActivateReload(s, outcome, failure)
    case ReloadDetaches(marks) => DetachReload(s, marks)
    case HeldStops => s.(phase := Halted)
    case Crash(instance) => Boot(instance, s.lane.stored)
  }
}
