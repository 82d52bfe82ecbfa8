/**
  What the session protocol guarantees over every run: a confirmed connection survives, a confirmed
  Disconnect is not undone, a delete is never forgotten, and local state wins over a reload. Where
  the handlers promise more than the code keeps, a concrete run shows it.
 */
module SessionTheorems {
  import opened Options
  import opened SessionStores
  import opened DelegationStores
  import opened SessionProtocol
  import opened SessionInvariant

  /** A run from a fresh process, through any number of crashes and restarts. */
  ghost predicate Execution(states: seq<Sys>, steps: seq<Step>) {
    && |states| == |steps| + 1
    && (exists instance, stored :: Fair(instance, stored) && states[0] == Boot(instance, stored))
    && forall i {:trigger steps[i]} | 0 <= i < |steps| :: Enabled(states[i], steps[i]) && states[i + 1] == Next(states[i], steps[i])
  }

  lemma {:induction false} RunInv(states: seq<Sys>, steps: seq<Step>, i: nat)
    requires Execution(states, steps) && i < |states|
    ensures Inv(states[i])
  {
    if i == 0 {
      var instance, stored :| Fair(instance, stored) && states[0] == Boot(instance, stored);
      BootInv(instance, stored);
    } else {
      RunInv(states, steps, i - 1);
      StepKeepsInv(states[i - 1], steps[i - 1]);
    }
  }

  /** A POST that is told its revision is still current, so that it reserves the entity. */
  predicate Reserves(s: Sys, step: Step) { step.PostStart? && s.slot.Snap().Current(step.expected) }

  lemma DoneChangesNothing(s: Sys)
    requires Inv(s) && s.slot.Known() && !s.slot.In(Restoring)
    ensures ReloadDone(s).slot == s.slot && ReloadDone(s).lane == s.lane && ReloadRetries(s).slot == s.slot && ReloadRetries(s).lane == s.lane
  {
  }

  /** A lease that a reload holds is not current any more. */
  lemma LateLease(s: Sys)
    requires Inv(s) && s.slot.Known() && !s.slot.In(Restoring)
    ensures match s.reload
            case Fetched(lease, _) => lease.Some? ==> !s.slot.Current(lease.value)
            case Reactivating(own, _) => !s.slot.Current(own)
            case Failing(own, _, _) => !s.slot.Current(own)
            case _ => true
  {
  }

  /**
    Local state wins: once a handler (or any reader) has given the entity a state in this process, no
    step of a reload, however far it had got, changes the access state or asks for a write.
   */
  lemma LocalStateWins(s: Sys, step: Step)
    requires Inv(s) && Enabled(s, step) && IsReload(step)
    requires s.slot.Known() && !s.slot.In(Restoring)
    ensures Next(s, step).slot == s.slot && Next(s, step).lane == s.lane
  {
    LateLease(s);
    DoneChangesNothing(s);
  }

  /** Nor does a reload change an unknown entity when nothing is stored for it. */
  lemma NothingToReload(s: Sys, step: Step)
    requires Inv(s) && Enabled(s, step) && IsReload(step)
    requires !s.slot.Known() && s.lane.stored.None?
    ensures Next(s, step).slot == s.slot && Next(s, step).lane == s.lane
  {
  }

  // ── A confirmed connection ─────────────────────────────────────────────────

  predicate Quiet(lane: Lane<Held>) {
    && (forall t | 0 <= t < |lane.runs| :: lane.runs[t].phase.Settled())
    && lane.timers.armed == map[]
  }

  /**
    The connection `(revision, grant)` is the stored record, nothing in flight can change that, and
    this process either holds it, is reloading it under that very revision, or has not got that far.
   */
  ghost predicate Keeps(s: Sys, revision: Revision, grant: Grant) {
    var held := ActiveHeld(revision, grant);
    && s.lane.stored == Some(held) && OnlyWrites(s.lane, Put(held))
    && grant.transcripts.Some?
    && (s.slot.Known() ==>
          || s.slot.access.value == Snapshot(revision, Active, Some(grant), None)
          || (s.slot.In(Restoring) && s.slot.Current(revision))
          || (s.slot.In(NoAccess) && Quiet(s.lane)))
  }

  /** The events that end a connection: a new ceremony, a Disconnect, a revocation, or its retention running out. */
  predicate Ends(s: Sys, step: Step) {
    || Reserves(s, step)
    || step.DeleteStart?
    || (step.ReloadDecides? && step.verdict.RetentionOver?)
    || (step.ReloadDetaches? && s.reload.Failing? && s.reload.failure.NodeRevoked?)
  }

  lemma KeepsOnRetry(s: Sys, timer: nat, revision: Revision, grant: Grant)
    requires Inv(s) && Keeps(s, revision, grant) && timer in s.lane.timers.armed
    ensures Keeps(Next(s, RetryFires(timer)), revision, grant)
  {
    FireKeepsPromises(s.slot, s.lane, timer);
  }

  lemma KeepsOnBegin(s: Sys, t: nat, revision: Revision, grant: Grant)
    requires Inv(s) && Keeps(s, revision, grant) && s.lane.CanBegin(t)
    ensures Keeps(Next(s, WriteBegins(t)), revision, grant)
  {
  }

  lemma KeepsOnLand(s: Sys, t: nat, revision: Revision, grant: Grant)
    requires Inv(s) && Keeps(s, revision, grant) && s.lane.CanLand(t)
    ensures Keeps(Next(s, WriteLands(t)), revision, grant)
  {
  }

  lemma KeepsOnFinish(s: Sys, t: nat, ok: bool, revision: Revision, grant: Grant)
    requires Inv(s) && Keeps(s, revision, grant) && s.lane.CanFinish(t, ok)
    ensures Keeps(Next(s, WriteFinishes(t, ok)), revision, grant)
  {
    FinishKeepsPromises(s.lane, t, ok);
  }

  lemma KeepsOnClean(s: Sys, t: nat, revision: Revision, grant: Grant)
    requires Inv(s) && Keeps(s, revision, grant) && s.lane.CanClean(t)
    ensures Keeps(Next(s, QueueCleans(t)), revision, grant)
  {
  }

  lemma KeepsOnWrites(s: Sys, step: Step, revision: Revision, grant: Grant)
    requires Inv(s) && Keeps(s, revision, grant) && Enabled(s, step) && IsWrite(step)
    ensures Keeps(Next(s, step), revision, grant)
  {
    match step
    case WriteBegins(t) => KeepsOnBegin(s, t, revision, grant);
    case WriteLands(t) => KeepsOnLand(s, t, revision, grant);
    case WriteFinishes(t, ok) => KeepsOnFinish(s, t, ok, revision, grant);
    case QueueCleans(t) => KeepsOnClean(s, t, revision, grant);
    case RetryFires(timer) => KeepsOnRetry(s, timer, revision, grant);
    case StoreStops =>
  }

  lemma KeepsOnHandlers(s: Sys, step: Step, revision: Revision, grant: Grant)
    requires Inv(s) && Keeps(s, revision, grant) && Enabled(s, step) && !Ends(s, step) && IsHandler(step)
    ensures Keeps(Next(s, step), revision, grant)
  {
    if step.PostActivates? || step.PostStages? || step.PostResumes? {
      assert PostInv(s.slot, s.lane, s.posts[step.id]);
    }
  }

  lemma KeepsOnDecision(s: Sys, verdict: Verdict, revision: Revision, grant: Grant)
    requires Inv(s) && Keeps(s, revision, grant) && s.reload.Fetched? && !verdict.RetentionOver?
    ensures Keeps(Decide(s, verdict), revision, grant)
  {
    if Fit(s) {
      BegunFacts(s);
    }
  }

  lemma KeepsOnDetach(s: Sys, marks: Marks, revision: Revision, grant: Grant)
    requires Inv(s) && Keeps(s, revision, grant) && s.reload.Failing? && !s.reload.failure.NodeRevoked?
    ensures Keeps(DetachReload(s, marks), revision, grant)
  {
  }

  /** Settling an entity that is not restoring changes nothing that is kept; one that is restoring falls back to "none". */
  lemma KeepsOnDone(s: Sys, revision: Revision, grant: Grant)
    requires Inv(s) && Keeps(s, revision, grant)
    ensures Keeps(ReloadDone(s), revision, grant) && Keeps(ReloadRetries(s), revision, grant)
  {
  }

  lemma KeepsOnActivation(s: Sys, outcome: Outcome, failure: Failure, revision: Revision, grant: Grant)
    requires Inv(s) && Keeps(s, revision, grant) && s.reload.Reactivating?
    ensures Keeps(ActivateReload(s, outcome, failure), revision, grant)
  {
    KeepsOnDone(s, revision, grant);
  }

  lemma KeepsOnReload(s: Sys, step: Step, revision: Revision, grant: Grant)
    requires Inv(s) && Keeps(s, revision, grant) && Enabled(s, step) && !Ends(s, step) && IsReload(step)
    ensures Keeps(Next(s, step), revision, grant)
  {
    match step
    case ReloadBegins => KeepsOnDone(s, revision, grant);
    case ReloadReads =>
    case ReloadReadFails => KeepsOnDone(s, revision, grant);
    case ReloadDecides(verdict) => KeepsOnDecision(s, verdict, revision, grant);
    case ReloadActivates(outcome, failure) => KeepsOnActivation(s, outcome, failure, revision, grant);
    case ReloadDetaches(marks) => KeepsOnDetach(s, marks, revision, grant);
  }

  lemma KeepsOnOthers(s: Sys, step: Step, revision: Revision, grant: Grant)
    requires Inv(s) && Keeps(s, revision, grant) && Enabled(s, step) && !IsHandler(step) && !IsWrite(step) && !IsReload(step)
    ensures Keeps(Next(s, step), revision, grant)
  {
  }

  lemma KeepsOnStep(s: Sys, step: Step, revision: Revision, grant: Grant)
    requires Inv(s) && Keeps(s, revision, grant) && Enabled(s, step) && !Ends(s, step)
    ensures Keeps(Next(s, step), revision, grant)
  {
    if IsHandler(step) {
      KeepsOnHandlers(s, step, revision, grant);
    } else if IsWrite(step) {
      KeepsOnWrites(s, step, revision, grant);
    } else if IsReload(step) {
      KeepsOnReload(s, step, revision, grant);
    } else {
      KeepsOnOthers(s, step, revision, grant);
    }
  }

  /** POST `id` answers 200 with this revision at step `i`. */
  predicate Confirms(states: seq<Sys>, steps: seq<Step>, i: nat, revision: Revision, grant: Grant) {
    && i < |steps| && i + 1 < |states| && steps[i].PostResumes?
    && steps[i].id in states[i + 1].posts
    && states[i + 1].posts[steps[i].id] == PostAnswered(Confirmed(revision, grant))
  }

  /**
    Main result on POST. In every interleaving, when a POST answers 200 the stored record is exactly
    the active record under the revision it returns, and so it stays, through crashes and restarts,
    until the connection ends; whenever a process holds or is reloading it, it does so under that revision.
   */
  lemma {:induction false} ConfirmedConnectionSurvives(states: seq<Sys>, steps: seq<Step>, i: nat, j: nat, revision: Revision, grant: Grant)
    requires Execution(states, steps) && Confirms(states, steps, i, revision, grant)
    requires i < j < |states| && forall k {:trigger steps[k]} | i < k < j :: !Ends(states[k], steps[k])
    ensures Keeps(states[j], revision, grant)
    decreases j
  {
    if j == i + 1 {
      RunInv(states, steps, i);
      var p := states[i].posts[steps[i].id];
      assert PostInv(states[i].slot, states[i].lane, p);
    } else {
      ConfirmedConnectionSurvives(states, steps, i, j - 1, revision, grant);
      RunInv(states, steps, j - 1);
      KeepsOnStep(states[j - 1], steps[j - 1], revision, grant);
    }
  }

  /** While the connection has not ended, a process that holds it or reloads it does so under its revision. */
  lemma HeldUnderItsRevision(states: seq<Sys>, steps: seq<Step>, i: nat, j: nat, revision: Revision, grant: Grant)
    requires Execution(states, steps) && Confirms(states, steps, i, revision, grant)
    requires i < j < |states| && forall k {:trigger steps[k]} | i < k < j :: !Ends(states[k], steps[k])
    requires states[j].slot.In(Active) || states[j].slot.In(Restoring)
    ensures states[j].slot.Current(revision)
    ensures states[j].slot.In(Active) ==> states[j].slot.access.value.record == Some(grant)
    ensures Desired(states[j].slot) == Keep || Desired(states[j].slot) == Put(ActiveHeld(revision, grant))
  {
    ConfirmedConnectionSurvives(states, steps, i, j, revision, grant);
  }

  predicate ActiveAgain(s: Sys, revision: Revision, grant: Grant) {
    s.slot.access == Some(Snapshot(revision, Active, Some(grant), None))
  }

  /** A record that passes its checks is reloaded under its revision. */
  lemma AcceptedReactivates(s: Sys, revision: Revision, grant: Grant)
    requires Inv(s) && Keeps(s, revision, grant) && s.reload.Fetched?
    requires if s.reload.lease.Some? then s.slot.Current(s.reload.lease.value) else !s.slot.Known()
    ensures var t := Decide(s, Accepted); t.reload == Reactivating(revision, grant) && t.slot.In(Restoring) && t.slot.Current(revision)
    ensures ActiveAgain(Decide(s, Lapsed), revision, grant)
  {
    BegunFacts(s);
  }

  /** A reactivation that succeeds under a current lease gives the connection back. */
  lemma ActivationRestores(s: Sys, failure: Failure, revision: Revision, grant: Grant)
    requires Inv(s) && Keeps(s, revision, grant) && s.reload.Reactivating? && s.slot.Current(s.reload.own)
    ensures ActiveAgain(ActivateReload(s, Succeeds, failure), revision, grant)
  {
  }

  /** Nobody else touches the entity, the reload's own checks do not refuse the record, and the process goes on. */
  predicate Undisturbed(s: Sys, step: Step) {
    && !step.Touch? && !step.PostStart? && !step.DeleteStart? && !step.HeldStops? && !step.Crash?
    && (step.IndexLoads? ==> step.listed)
    && (step.ReloadDecides? ==> step.verdict.Accepted? || step.verdict.Lapsed?)
    && (step.ReloadDetaches? && s.reload.Failing? ==> s.reload.failure.GrantExpired? || s.reload.failure.NodeError?)
  }

  /** The ends of restore() that load the record: activated, or expired and loaded unregistered. */
  predicate Completes(s: Sys, step: Step) {
    || (step.ReloadActivates? && step.outcome.Succeeds?)
    || (step.ReloadDecides? && step.verdict.Lapsed?)
    || (step.ReloadDetaches? && s.reload.Failing? && s.reload.failure.GrantExpired?)
  }

  /** The stored connection is on its way back: not looked at yet, being reloaded, or active. */
  ghost predicate Returning(s: Sys, revision: Revision, grant: Grant) {
    && Keeps(s, revision, grant) && !s.phase.Halted?
    && (s.slot.Known() ==> ActiveAgain(s, revision, grant) || (s.slot.In(Restoring) && s.slot.Current(revision)))
    && (s.phase.Ready? && !ActiveAgain(s, revision, grant) ==> s.pending)
  }

  lemma RestartReturns(s: Sys, instance: nat, revision: Revision, grant: Grant)
    requires Keeps(s, revision, grant)
    ensures Returning(Boot(instance, s.lane.stored), revision, grant)
  {
  }

  /** What a reload in progress knows while the connection is on its way back. */
  lemma ReturningFacts(s: Sys, revision: Revision, grant: Grant)
    requires Inv(s) && Returning(s, revision, grant) && !ActiveAgain(s, revision, grant) && !s.reload.Idle?
    ensures s.phase.Ready? && s.pending
    ensures match s.reload
            case Fetching(lease) => if lease.Some? then lease.value == revision && s.slot.Current(revision) else !s.slot.Known()
            case Fetched(lease, value) => (if lease.Some? then lease.value == revision && s.slot.Current(revision) else !s.slot.Known()) && Fit(s)
            case Reactivating(own, g) => own == revision && g == grant && s.slot.Current(own)
            case Failing(own, g, _) => own == revision && g == grant && s.slot.Current(own)
  {
  }

  lemma ReturningDecides(s: Sys, verdict: Verdict, revision: Revision, grant: Grant)
    requires Inv(s) && Returning(s, revision, grant) && !ActiveAgain(s, revision, grant) && s.reload.Fetched?
    requires verdict.Accepted? || verdict.Lapsed?
    ensures Returning(Decide(s, verdict), revision, grant) && (verdict.Lapsed? ==> ActiveAgain(Decide(s, verdict), revision, grant))
  {
    ReturningFacts(s, revision, grant);
    AcceptedReactivates(s, revision, grant);
    KeepsOnDecision(s, verdict, revision, grant);
  }

  lemma ReturningActivates(s: Sys, outcome: Outcome, failure: Failure, revision: Revision, grant: Grant)
    requires Inv(s) && Returning(s, revision, grant) && !ActiveAgain(s, revision, grant) && Enabled(s, ReloadActivates(outcome, failure))
    ensures var t := ActivateReload(s, outcome, failure);
      Returning(t, revision, grant) && (outcome.Succeeds? ==> ActiveAgain(t, revision, grant))
  {
    ReturningFacts(s, revision, grant);
    KeepsOnActivation(s, outcome, failure, revision, grant);
  }

  lemma ReturningDetaches(s: Sys, marks: Marks, revision: Revision, grant: Grant)
    requires Inv(s) && Returning(s, revision, grant) && !ActiveAgain(s, revision, grant) && s.reload.Failing?
    requires s.reload.failure.GrantExpired? || s.reload.failure.NodeError?
    ensures var t := DetachReload(s, marks);
      Returning(t, revision, grant) && (s.reload.failure.GrantExpired? ==> ActiveAgain(t, revision, grant))
  {
    ReturningFacts(s, revision, grant);
    KeepsOnDetach(s, marks, revision, grant);
  }

  lemma ReturningReloads(s: Sys, step: Step, revision: Revision, grant: Grant)
    requires Inv(s) && Returning(s, revision, grant) && !ActiveAgain(s, revision, grant)
    requires Enabled(s, step) && Undisturbed(s, step) && IsReload(step)
    ensures Returning(Next(s, step), revision, grant) && (Completes(s, step) ==> ActiveAgain(Next(s, step), revision, grant))
  {
    match step
    case ReloadDecides(verdict) => ReturningDecides(s, verdict, revision, grant);
    case ReloadActivates(outcome, failure) => ReturningActivates(s, outcome, failure, revision, grant);
    case ReloadDetaches(marks) => ReturningDetaches(s, marks, revision, grant);
    case ReloadReadFails => ReturningFacts(s, revision, grant);
    case _ =>
  }

  /** Whatever is not a step of the reload leaves the entity as it is. */
  lemma ReturningWaits(s: Sys, step: Step, revision: Revision, grant: Grant)
    requires Inv(s) && Returning(s, revision, grant) && Enabled(s, step) && Undisturbed(s, step) && !IsReload(step)
    ensures Next(s, step).slot.access == s.slot.access && !Next(s, step).phase.Halted?
    ensures Next(s, step).phase.Ready? && !ActiveAgain(s, revision, grant) ==> Next(s, step).pending
  {
    if step.PostActivates? || step.PostStages? || step.PostResumes? {
      assert PostInv(s.slot, s.lane, s.posts[step.id]);
    }
  }

  lemma ReloadsGoOn(s: Sys, step: Step)
    requires Enabled(s, step) && IsReload(step)
    ensures Next(s, step).phase == s.phase
  {
  }

  lemma ActiveIsLeftAlone(s: Sys, step: Step, revision: Revision, grant: Grant)
    requires Inv(s) && ActiveAgain(s, revision, grant) && Enabled(s, step) && IsReload(step)
    ensures ActiveAgain(Next(s, step), revision, grant) && Next(s, step).phase == s.phase
  {
    LocalStateWins(s, step);
    ReloadsGoOn(s, step);
  }

  lemma ReturningOnStep(s: Sys, step: Step, revision: Revision, grant: Grant)
    requires Inv(s) && Returning(s, revision, grant) && Enabled(s, step) && Undisturbed(s, step)
    ensures Returning(Next(s, step), revision, grant)
    ensures ActiveAgain(s, revision, grant) || Completes(s, step) ==> ActiveAgain(Next(s, step), revision, grant)
  {
    KeepsOnStep(s, step, revision, grant);
    if !IsReload(step) {
      ReturningWaits(s, step, revision, grant);
    } else if ActiveAgain(s, revision, grant) {
      ActiveIsLeftAlone(s, step, revision, grant);
    } else {
      ReturningReloads(s, step, revision, grant);
    }
  }

  /** A restart at step `c` over a confirmed connection that has not ended, with nobody else touching the entity up to `j`. */
  ghost predicate Restarted(states: seq<Sys>, steps: seq<Step>, i: nat, c: nat, j: nat, revision: Revision, grant: Grant) {
    && Execution(states, steps) && Confirms(states, steps, i, revision, grant)
    && i < c < j < |states| && steps[c].Crash?
    && (forall k {:trigger steps[k]} | i < k < c :: !Ends(states[k], steps[k]))
    && forall k {:trigger steps[k]} | c < k < j :: Undisturbed(states[k], steps[k])
  }

  lemma ReturnStarts(states: seq<Sys>, steps: seq<Step>, i: nat, c: nat, j: nat, revision: Revision, grant: Grant)
    requires Restarted(states, steps, i, c, j, revision, grant)
    ensures Returning(states[c + 1], revision, grant)
  {
    ConfirmedConnectionSurvives(states, steps, i, c, revision, grant);
    RestartReturns(states[c], steps[c].instance, revision, grant);
    assert states[c + 1] == Next(states[c], steps[c]);
  }

  lemma ReturnGoesOn(states: seq<Sys>, steps: seq<Step>, k: nat, revision: Revision, grant: Grant)
    requires Execution(states, steps) && k < |steps| && Undisturbed(states[k], steps[k]) && Returning(states[k], revision, grant)
    ensures Returning(states[k + 1], revision, grant)
    ensures ActiveAgain(states[k], revision, grant) || Completes(states[k], steps[k]) ==> ActiveAgain(states[k + 1], revision, grant)
  {
    RunInv(states, steps, k);
    assert Enabled(states[k], steps[k]) && states[k + 1] == Next(states[k], steps[k]);
    ReturningOnStep(states[k], steps[k], revision, grant);
  }

  lemma {:induction false} ReturnStays(states: seq<Sys>, steps: seq<Step>, a: nat, k: nat, revision: Revision, grant: Grant)
    requires Execution(states, steps) && a <= k < |states| && Returning(states[a], revision, grant)
    requires forall m {:trigger steps[m]} | a <= m < k :: Undisturbed(states[m], steps[m])
    ensures Returning(states[k], revision, grant) && (ActiveAgain(states[a], revision, grant) ==> ActiveAgain(states[k], revision, grant))
    decreases k
  {
    if k > a {
      ReturnStays(states, steps, a, k - 1, revision, grant);
      ReturnGoesOn(states, steps, k - 1, revision, grant);
    }
  }

  /**
    Main result on reloading. After a restart over a confirmed connection, the first reload that
    completes makes the entity active under the very revision that the POST returned, with its record,
    and so it stays.
   */
  lemma ReloadRestoresTheConnection(
      states: seq<Sys>, steps: seq<Step>, i: nat, c: nat, a: nat, j: nat, revision: Revision, grant: Grant)
    requires Restarted(states, steps, i, c, j, revision, grant) && c < a < j && Completes(states[a], steps[a])
    ensures ActiveAgain(states[j], revision, grant)
  {
    ReturnStarts(states, steps, i, c, j, revision, grant);
    ReturnStays(states, steps, c + 1, a, revision, grant);
    ReturnGoesOn(states, steps, a, revision, grant);
    ReturnStays(states, steps, a + 1, j, revision, grant);
  }

  /** Until then the reload is not lost: once the index is loaded, it is in progress or can begin, and nothing is reported but "restoring". */
  lemma ReloadIsNotLost(states: seq<Sys>, steps: seq<Step>, i: nat, c: nat, j: nat, revision: Revision, grant: Grant)
    requires Restarted(states, steps, i, c, j, revision, grant) && states[j].phase.Ready? && !ActiveAgain(states[j], revision, grant)
    ensures states[j].pending && (states[j].reload.Idle? ==> Enabled(states[j], ReloadBegins))
    ensures states[j].slot.Known() ==> states[j].slot.In(Restoring) && states[j].slot.Current(revision)
  {
    ReturnStarts(states, steps, i, c, j, revision, grant);
    ReturnStays(states, steps, c + 1, j, revision, grant);
  }

  // ── A confirmed Disconnect ─────────────────────────────────────────────────

  /** Nothing is stored, nothing in flight can store anything, and this process grants nothing. */
  ghost predicate Removed(s: Sys) {
    && s.lane.stored.None? && OnlyWrites(s.lane, Delete)
    && (s.slot.Known() ==> s.slot.In(Disconnected) || s.slot.In(NoAccess))
  }

  lemma RemovedOnFinish(s: Sys, t: nat, ok: bool)
    requires Inv(s) && Removed(s) && s.lane.CanFinish(t, ok)
    ensures Removed(Next(s, WriteFinishes(t, ok)))
  {
    FinishKeepsPromises(s.lane, t, ok);
  }

  lemma RemovedOnBegin(s: Sys, t: nat)
    requires Inv(s) && Removed(s) && s.lane.CanBegin(t)
    ensures Removed(Next(s, WriteBegins(t)))
  {
  }

  lemma RemovedOnLand(s: Sys, t: nat)
    requires Inv(s) && Removed(s) && s.lane.CanLand(t)
    ensures Removed(Next(s, WriteLands(t)))
  {
  }

  lemma RemovedOnRetry(s: Sys, timer: nat)
    requires Inv(s) && Removed(s) && timer in s.lane.timers.armed
    ensures Removed(Next(s, RetryFires(timer)))
  {
    FireKeepsPromises(s.slot, s.lane, timer);
  }

  lemma RemovedOnWrites(s: Sys, step: Step)
    requires Inv(s) && Removed(s) && Enabled(s, step) && IsWrite(step)
    ensures Removed(Next(s, step))
  {
    match step
    case WriteBegins(t) => RemovedOnBegin(s, t);
    case WriteLands(t) => RemovedOnLand(s, t);
    case WriteFinishes(t, ok) => RemovedOnFinish(s, t, ok);
    case QueueCleans(_) =>
    case RetryFires(timer) => RemovedOnRetry(s, timer);
    case StoreStops =>
  }

  lemma RemovedOnDelete(s: Sys, id: nat)
    requires Inv(s) && Removed(s) && id !in s.removals
    ensures Removed(Next(s, DeleteStart(id)))
  {
    SyncFrame(s.lane);
  }

  lemma RemovedOnHandlers(s: Sys, step: Step)
    requires Inv(s) && Removed(s) && Enabled(s, step) && !Reserves(s, step) && IsHandler(step)
    ensures Removed(Next(s, step))
  {
    if step.PostActivates? || step.PostStages? || step.PostResumes? {
      assert PostInv(s.slot, s.lane, s.posts[step.id]);
    } else if step.DeleteStart? {
      RemovedOnDelete(s, step.id);
    }
  }

  lemma RemovedOnStep(s: Sys, step: Step)
    requires Inv(s) && Removed(s) && Enabled(s, step) && !Reserves(s, step)
    ensures Removed(Next(s, step))
  {
    if IsHandler(step) {
      RemovedOnHandlers(s, step);
    } else if IsWrite(step) {
      RemovedOnWrites(s, step);
    } else if IsReload(step) {
      if s.slot.Known() {
        LocalStateWins(s, step);
      } else {
        NothingToReload(s, step);
      }
    }
  }

  /** The DELETE that holds `ticket` disconnected the entity, and nobody has reserved it since. */
  ghost predicate Clearing(s: Sys, ticket: nat) {
    && s.slot.In(Disconnected)
    && ticket < |s.lane.runs|
    && match s.lane.runs[ticket].phase
       case Waiting => true
       case Writing(want, _) => want == Delete
       case Settling(ok) => ok ==> s.lane.stored.None? && OnlyWrites(s.lane, Delete)
       case Over(ok) => ok ==> s.lane.stored.None? && OnlyWrites(s.lane, Delete)
  }

  lemma ClearingOnFinish(s: Sys, t: nat, ok: bool, ticket: nat)
    requires Inv(s) && Clearing(s, ticket) && s.lane.CanFinish(t, ok)
    ensures Clearing(Next(s, WriteFinishes(t, ok)), ticket)
  {
    var after := s.lane.Finish(t, ok);
    assert forall u | 0 <= u < |s.lane.runs| :: after.runs[u] == if u == t then s.lane.runs[t].(phase := Settling(ok)) else s.lane.runs[u];
  }

  lemma ClearingOnBegin(s: Sys, t: nat, ticket: nat)
    requires Inv(s) && Clearing(s, ticket) && s.lane.CanBegin(t)
    ensures Clearing(Next(s, WriteBegins(t)), ticket)
  {
  }

  lemma ClearingOnLand(s: Sys, t: nat, ticket: nat)
    requires Inv(s) && Clearing(s, ticket) && s.lane.CanLand(t)
    ensures Clearing(Next(s, WriteLands(t)), ticket)
  {
  }

  lemma ClearingOnClean(s: Sys, t: nat, ticket: nat)
    requires Inv(s) && Clearing(s, ticket) && s.lane.CanClean(t)
    ensures Clearing(Next(s, QueueCleans(t)), ticket)
  {
  }

  lemma ClearingOnRetry(s: Sys, timer: nat, ticket: nat)
    requires Inv(s) && Clearing(s, ticket) && timer in s.lane.timers.armed
    ensures Clearing(Next(s, RetryFires(timer)), ticket)
  {
    FireKeepsPromises(s.slot, s.lane, timer);
  }

  lemma ClearingOnWrites(s: Sys, step: Step, ticket: nat)
    requires Inv(s) && Clearing(s, ticket) && Enabled(s, step) && IsWrite(step)
    ensures Clearing(Next(s, step), ticket)
  {
    match step
    case WriteBegins(t) => ClearingOnBegin(s, t, ticket);
    case WriteLands(t) => ClearingOnLand(s, t, ticket);
    case WriteFinishes(t, ok) => ClearingOnFinish(s, t, ok, ticket);
    case QueueCleans(t) => ClearingOnClean(s, t, ticket);
    case RetryFires(timer) => ClearingOnRetry(s, timer, ticket);
    case StoreStops =>
  }

  lemma ClearingOnDelete(s: Sys, id: nat, ticket: nat)
    requires Inv(s) && Clearing(s, ticket) && id !in s.removals
    ensures Clearing(Next(s, DeleteStart(id)), ticket)
  {
    SyncFrame(s.lane);
  }

  lemma ClearingOnHandlers(s: Sys, step: Step, ticket: nat)
    requires Inv(s) && Clearing(s, ticket) && Enabled(s, step) && !Reserves(s, step) && IsHandler(step)
    ensures Clearing(Next(s, step), ticket)
  {
    if step.PostActivates? || step.PostStages? || step.PostResumes? {
      assert PostInv(s.slot, s.lane, s.posts[step.id]);
    } else if step.DeleteStart? {
      ClearingOnDelete(s, step.id, ticket);
    }
  }

  lemma ClearingOnStep(s: Sys, step: Step, ticket: nat)
    requires Inv(s) && Clearing(s, ticket) && Enabled(s, step) && !Reserves(s, step) && !step.Crash?
    ensures Clearing(Next(s, step), ticket)
  {
    if IsHandler(step) {
      ClearingOnHandlers(s, step, ticket);
    } else if IsWrite(step) {
      ClearingOnWrites(s, step, ticket);
    } else if IsReload(step) {
      LocalStateWins(s, step);
    }
  }

  /** From its start, a pending DELETE is clearing the entity as long as nobody reserves it. */
  lemma {:induction false} PendingDeleteClears(states: seq<Sys>, steps: seq<Step>, h: nat, i: nat)
    requires Execution(states, steps) && h < i < |states| && steps[h].DeleteStart?
    requires forall k {:trigger steps[k]} | h < k < i :: !Reserves(states[k], steps[k]) && !steps[k].Crash?
    ensures Clearing(states[i], states[h].lane.Sync().1)
    decreases i
  {
    if i == h + 1 {
      RunInv(states, steps, h);
      SyncFrame(states[h].lane);
    } else {
      PendingDeleteClears(states, steps, h, i - 1);
      RunInv(states, steps, i - 1);
      ClearingOnStep(states[i - 1], steps[i - 1], states[h].lane.Sync().1);
    }
  }

  lemma RetentionOnlySyncs(s: Sys)
    requires s.reload.Fetched?
    ensures Decide(s, RetentionOver).lane == s.lane || Decide(s, RetentionOver).lane == s.lane.Sync().0
  {
  }

  lemma DecideOnlySyncs(s: Sys, verdict: Verdict)
    requires s.reload.Fetched?
    ensures Decide(s, verdict).lane == s.lane || Decide(s, verdict).lane == s.lane.Sync().0
  {
    if verdict.RetentionOver? {
      RetentionOnlySyncs(s);
    } else {
      assert Decide(s, verdict).lane == s.lane;
    }
  }

  lemma DetachOnlySyncs(s: Sys, marks: Marks)
    requires s.reload.Failing?
    ensures DetachReload(s, marks).lane == s.lane || DetachReload(s, marks).lane == s.lane.Sync().0
  {
  }

  lemma PostOnlySyncs(s: Sys, step: Step)
    requires Enabled(s, step) && (step.PostStart? || step.PostActivates? || step.PostStages? || step.PostResumes?)
    ensures Next(s, step).lane == s.lane || Next(s, step).lane == s.lane.Sync().0
  {
  }

  /** Every other step leaves the lane alone or calls sync() once. */
  lemma OthersOnlySync(s: Sys, step: Step)
    requires Enabled(s, step) && !step.Crash? && !IsWrite(step)
    ensures Next(s, step).lane == s.lane || Next(s, step).lane == s.lane.Sync().0
  {
    match step
    case PostStart(_, _, _) => PostOnlySyncs(s, step);
    case PostActivates(_, _) => PostOnlySyncs(s, step);
    case PostStages(_) => PostOnlySyncs(s, step);
    case PostResumes(_) => PostOnlySyncs(s, step);
    case ReloadDecides(verdict) => DecideOnlySyncs(s, verdict);
    case ReloadDetaches(marks) => DetachOnlySyncs(s, marks);
    case _ =>
  }

  lemma WriteFrame(s: Sys, step: Step, t: nat)
    requires Inv(s) && Enabled(s, step) && IsWrite(step) && t < |s.lane.runs|
    requires step.StoreStops? || step.RetryFires? || step.ticket != t
    ensures t < |Next(s, step).lane.runs| && Next(s, step).lane.runs[t] == s.lane.runs[t]
  {
    if step.RetryFires? {
      FireKeepsPromises(s.slot, s.lane, step.timer);
    }
  }

  /** A step changes a write only if it is about that very write. */
  lemma LaneFrame(s: Sys, step: Step, t: nat)
    requires Inv(s) && Enabled(s, step) && !step.Crash? && t < |s.lane.runs|
    requires step != WriteBegins(t) && step != WriteLands(t) && step != QueueCleans(t)
    requires !(step.WriteFinishes? && step.ticket == t)
    ensures t < |Next(s, step).lane.runs| && Next(s, step).lane.runs[t] == s.lane.runs[t]
  {
    if IsWrite(step) {
      WriteFrame(s, step, t);
    } else {
      OthersOnlySync(s, step);
      SyncFrame(s.lane);
    }
  }

  lemma DecideLeavesRemovals(s: Sys, verdict: Verdict)
    requires s.reload.Fetched?
    ensures Decide(s, verdict).removals == s.removals
  {
  }

  lemma ReloadsLeaveRemovals(s: Sys, step: Step)
    requires Enabled(s, step) && IsReload(step)
    ensures Next(s, step).removals == s.removals
  {
    match step
    case ReloadDecides(verdict) => DecideLeavesRemovals(s, verdict);
    case _ =>
  }

  /** A pending DELETE keeps its ticket until it answers. */
  lemma RemovalFrame(s: Sys, step: Step, id: nat)
    requires Enabled(s, step) && !step.Crash? && id in s.removals && !(step.DeleteAnswers? && step.id == id)
    ensures id in Next(s, step).removals && Next(s, step).removals[id] == s.removals[id]
  {
    if IsReload(step) {
      ReloadsLeaveRemovals(s, step);
    }
  }

  /** The step at which the write of a ticket reads the desired state. */
  lemma {:induction false} FindRead(states: seq<Sys>, steps: seq<Step>, t: nat, lo: nat, hi: nat) returns (b: nat)
    requires Execution(states, steps) && lo <= hi < |states|
    requires t < |states[lo].lane.runs| && states[lo].lane.runs[t].phase.Waiting?
    requires states[hi].lane.Answer(t).Some?
    requires forall k {:trigger steps[k]} | lo <= k < hi :: !steps[k].Crash?
    ensures lo <= b < hi && steps[b] == WriteBegins(t)
    decreases hi - lo
  {
    RunInv(states, steps, lo);
    if steps[lo] == WriteBegins(t) {
      b := lo;
    } else {
      LaneFrame(states[lo], steps[lo], t);
      b := FindRead(states, steps, t, lo + 1, hi);
    }
  }

  lemma {:induction false} SameTicket(states: seq<Sys>, steps: seq<Step>, id: nat, h: nat, i: nat)
    requires Execution(states, steps) && h < i < |states| && steps[h] == DeleteStart(id)
    requires forall k {:trigger steps[k]} | h < k < i :: !steps[k].Crash? && !(steps[k].DeleteAnswers? && steps[k].id == id)
    ensures id in states[i].removals && states[i].removals[id] == Removing(states[h].slot.Fresh(), states[h].lane.Sync().1)
    decreases i
  {
    if i == h + 1 {
      assert states[i] == StartDelete(states[h], id);
    } else {
      SameTicket(states, steps, id, h, i - 1);
      RemovalFrame(states[i - 1], steps[i - 1], id);
    }
  }

  /** DELETE `id`, begun at `h`, answers 200 at `i`, in the same process. */
  predicate Disconnects(states: seq<Sys>, steps: seq<Step>, id: nat, h: nat, i: nat) {
    && h < i < |steps| && |states| == |steps| + 1
    && steps[h] == DeleteStart(id) && steps[i].DeleteAnswers? && steps[i].id == id
    && (forall k {:trigger steps[k]} | h < k < i :: !steps[k].Crash? && !(steps[k].DeleteAnswers? && steps[k].id == id))
    && id in states[i + 1].removals && states[i + 1].removals[id] == RemovalAnswered(true)
  }

  /** When a DELETE answers 200 that nobody has overtaken, the entity is removed. */
  lemma DisconnectRemoves(states: seq<Sys>, steps: seq<Step>, id: nat, h: nat, i: nat)
    requires Execution(states, steps) && Disconnects(states, steps, id, h, i)
    requires forall k {:trigger steps[k]} | h < k < i :: !Reserves(states[k], steps[k])
    ensures Removed(states[i + 1])
  {
    SameTicket(states, steps, id, h, i);
    PendingDeleteClears(states, steps, h, i);
    assert states[i + 1] == Next(states[i], steps[i]);
  }

  lemma {:induction false} RemovedStays(states: seq<Sys>, steps: seq<Step>, a: nat, j: nat)
    requires Execution(states, steps) && a <= j < |states| && Removed(states[a])
    requires forall k {:trigger steps[k]} | a <= k < j :: !Reserves(states[k], steps[k])
    ensures Removed(states[j])
    decreases j
  {
    if a < j {
      RemovedStays(states, steps, a, j - 1);
      RunInv(states, steps, j - 1);
      RemovedOnStep(states[j - 1], steps[j - 1]);
    }
  }

  /**
    Main result on DELETE. After a DELETE answers 200 nothing is stored, and no write, retry, reload or
    crash and restart brings the connection back, until a POST reserves the entity.
   */
  lemma ConfirmedDisconnectStays(states: seq<Sys>, steps: seq<Step>, id: nat, h: nat, i: nat, j: nat)
    requires Execution(states, steps) && Disconnects(states, steps, id, h, i)
    requires i < j < |states| && forall k {:trigger steps[k]} | h < k < j :: !Reserves(states[k], steps[k])
    ensures Removed(states[j])
  {
    DisconnectRemoves(states, steps, id, h, i);
    RemovedStays(states, steps, i + 1, j);
  }

  /** The ticket of a DELETE is waiting when it has begun, and has its answer when the DELETE answers. */
  lemma TicketWaits(states: seq<Sys>, steps: seq<Step>, id: nat, h: nat)
    requires Execution(states, steps) && h < |steps| && steps[h] == DeleteStart(id)
    ensures var t := states[h].lane.Sync().1; t < |states[h + 1].lane.runs| && states[h + 1].lane.runs[t].phase.Waiting?
  {
    RunInv(states, steps, h);
    SyncFrame(states[h].lane);
    assert states[h + 1] == StartDelete(states[h], id);
  }

  lemma TicketAnswers(states: seq<Sys>, steps: seq<Step>, id: nat, h: nat, i: nat)
    requires Execution(states, steps) && Disconnects(states, steps, id, h, i)
    ensures states[i].lane.Answer(states[h].lane.Sync().1).Some?
  {
    SameTicket(states, steps, id, h, i);
    assert Enabled(states[i], steps[i]);
  }

  /** What a write does when it reads the desired state. */
  lemma ReadIsWritten(states: seq<Sys>, steps: seq<Step>, b: nat, t: nat)
    requires Execution(states, steps) && b < |steps| && steps[b] == WriteBegins(t)
    ensures t < |states[b + 1].lane.runs| && states[b + 1].lane.runs[t].phase == Writing(Desired(states[b].slot), false)
    ensures Desired(states[b].slot) == Delete <==> states[b].slot.In(Disconnected) || states[b].slot.In(NoAccess)
  {
    assert Enabled(states[b], steps[b]);
    assert states[b + 1].lane == states[b].lane.Begin(t, Desired(states[b].slot));
  }

  /**
    Exactly when the write of a DELETE that answers 200 is a delete: when, at the instant it read the
    desired state, no POST held the entity. If nobody reserved it before that read, it was.
   */
  lemma DeleteIsDecidedAtTheRead(states: seq<Sys>, steps: seq<Step>, id: nat, h: nat, i: nat) returns (b: nat)
    requires Execution(states, steps) && Disconnects(states, steps, id, h, i)
    ensures h < b < i && steps[b] == WriteBegins(states[h].lane.Sync().1)
    ensures states[h].lane.Sync().1 < |states[b + 1].lane.runs|
    ensures states[b + 1].lane.runs[states[h].lane.Sync().1].phase == Writing(Desired(states[b].slot), false)
    ensures Desired(states[b].slot) == Delete <==> states[b].slot.In(Disconnected) || states[b].slot.In(NoAccess)
    ensures (forall k {:trigger steps[k]} | h < k < b :: !Reserves(states[k], steps[k])) ==> states[b].slot.In(Disconnected)
  {
    var t := states[h].lane.Sync().1;
    TicketWaits(states, steps, id, h);
    TicketAnswers(states, steps, id, h, i);
    b := FindRead(states, steps, t, h + 1, i);
    ReadIsWritten(states, steps, b, t);
    if forall k {:trigger steps[k]} | h < k < b :: !Reserves(states[k], steps[k]) {
      PendingDeleteClears(states, steps, h, b);
    }
  }

  /** Write `t` is in flight with `want`, and `before` was stored when it began. */
  ghost predicate InFlight(lane: Lane<Held>, t: nat, want: Want<Held>, before: Option<Held>) {
    && t < |lane.runs| && lane.runs[t].phase.Writing? && lane.runs[t].phase.want == want
    && lane.stored == if lane.runs[t].phase.landed then Effect(want, before) else before
  }

  /** No other write lands meanwhile. */
  lemma FlightOnLand(l: Lane<Held>, u: nat, t: nat, want: Want<Held>, before: Option<Held>)
    requires l.Ordered() && l.CanLand(u) && InFlight(l, t, want, before)
    ensures InFlight(l.Land(u), t, want, before)
  {
    assert u == t;
  }

  lemma FlightOnRetry(s: Sys, timer: nat, t: nat, want: Want<Held>, before: Option<Held>)
    requires Inv(s) && timer in s.lane.timers.armed && InFlight(s.lane, t, want, before)
    ensures InFlight(s.lane.Fire(timer), t, want, before)
  {
    FireKeepsPromises(s.slot, s.lane, timer);
  }

  lemma FlightOnWrites(s: Sys, step: Step, t: nat, want: Want<Held>, before: Option<Held>)
    requires Inv(s) && Enabled(s, step) && IsWrite(step) && InFlight(s.lane, t, want, before)
    requires !(step.WriteFinishes? && step.ticket == t)
    ensures InFlight(Next(s, step).lane, t, want, before)
  {
    match step
    case WriteLands(u) => FlightOnLand(s.lane, u, t, want, before);
    case RetryFires(timer) => FlightOnRetry(s, timer, t, want, before);
    case WriteBegins(_) => LaneFrame(s, step, t);
    case WriteFinishes(_, _) => LaneFrame(s, step, t);
    case QueueCleans(_) => LaneFrame(s, step, t);
    case StoreStops => LaneFrame(s, step, t);
  }

  lemma FlightFrame(s: Sys, step: Step, t: nat, want: Want<Held>, before: Option<Held>)
    requires Inv(s) && Enabled(s, step) && !step.Crash? && InFlight(s.lane, t, want, before)
    requires !(step.WriteFinishes? && step.ticket == t)
    ensures InFlight(Next(s, step).lane, t, want, before)
  {
    if IsWrite(step) {
      FlightOnWrites(s, step, t, want, before);
    } else {
      OthersOnlySync(s, step);
      SyncFrame(s.lane);
    }
  }

  /** An answer that a ticket has got is its answer for the rest of the process. */
  lemma {:induction false} AnswerStays(states: seq<Sys>, steps: seq<Step>, t: nat, lo: nat, hi: nat)
    requires Execution(states, steps) && lo <= hi < |states| && states[lo].lane.Answer(t).Some?
    requires forall k {:trigger steps[k]} | lo <= k < hi :: !steps[k].Crash?
    ensures states[hi].lane.Answer(t) == states[lo].lane.Answer(t)
    decreases hi - lo
  {
    if lo < hi {
      RunInv(states, steps, lo);
      if steps[lo] != QueueCleans(t) {
        LaneFrame(states[lo], steps[lo], t);
      }
      AnswerStays(states, steps, t, lo + 1, hi);
    }
  }

  lemma FlightEnds(s: Sys, t: nat, ok: bool, want: Want<Held>, before: Option<Held>)
    requires InFlight(s.lane, t, want, before) && s.lane.CanFinish(t, ok)
    ensures s.lane.Finish(t, ok).Answer(t) == Some(ok) && (ok ==> s.lane.Finish(t, ok).stored == Effect(want, before))
  {
  }

  lemma EndsHere(states: seq<Sys>, steps: seq<Step>, t: nat, want: Want<Held>, before: Option<Held>, f: nat, hi: nat)
    requires Execution(states, steps) && f < hi < |states| && steps[f].WriteFinishes? && steps[f].ticket == t
    requires InFlight(states[f].lane, t, want, before) && states[hi].lane.Answer(t) == Some(true)
    requires forall k {:trigger steps[k]} | f <= k < hi :: !steps[k].Crash?
    ensures steps[f].ok && states[f + 1].lane.stored == Effect(want, before)
  {
    assert states[f + 1] == Next(states[f], steps[f]);
    FlightEnds(states[f], t, steps[f].ok, want, before);
    AnswerStays(states, steps, t, f + 1, hi);
  }

  lemma FlightGoesOn(states: seq<Sys>, steps: seq<Step>, t: nat, want: Want<Held>, before: Option<Held>, i: nat)
    requires Execution(states, steps) && i < |steps| && !steps[i].Crash? && !(steps[i].WriteFinishes? && steps[i].ticket == t)
    requires InFlight(states[i].lane, t, want, before)
    ensures InFlight(states[i + 1].lane, t, want, before)
  {
    RunInv(states, steps, i);
    FlightFrame(states[i], steps[i], t, want, before);
  }

  /** The step at which a write in flight settles with success, and what is stored then. */
  lemma {:induction false} FindEnd(states: seq<Sys>, steps: seq<Step>, t: nat, want: Want<Held>, before: Option<Held>, lo: nat, hi: nat)
      returns (f: nat)
    requires Execution(states, steps) && lo <= hi < |states|
    requires InFlight(states[lo].lane, t, want, before) && states[hi].lane.Answer(t) == Some(true)
    requires forall k {:trigger steps[k]} | lo <= k < hi :: !steps[k].Crash?
    ensures lo <= f < hi && steps[f] == WriteFinishes(t, true)
    ensures states[f + 1].lane.stored == Effect(want, before)
    decreases hi - lo
  {
    if steps[lo].WriteFinishes? && steps[lo].ticket == t {
      f := lo;
      EndsHere(states, steps, t, want, before, lo, hi);
    } else {
      FlightGoesOn(states, steps, t, want, before, lo);
      f := FindEnd(states, steps, t, want, before, lo + 1, hi);
    }
  }

  /** When the write of what desired() returns leaves nothing stored. */
  lemma NothingIsLeft(slot: Slot<Grant>, before: Option<Held>)
    ensures Effect(Desired(slot), before).None? <==> slot.In(Disconnected) || slot.In(NoAccess) || (Desired(slot) == Keep && before.None?)
  {
  }

  /** The end of the write that answers a DELETE, and what is stored then. */
  lemma DeleteEnds(states: seq<Sys>, steps: seq<Step>, id: nat, h: nat, i: nat) returns (b: nat, f: nat)
    requires Execution(states, steps) && Disconnects(states, steps, id, h, i)
    ensures h < b < f < i && steps[b] == WriteBegins(states[h].lane.Sync().1) && steps[f] == WriteFinishes(states[h].lane.Sync().1, true)
    ensures states[f + 1].lane.stored == Effect(Desired(states[b].slot), states[b].lane.stored)
    ensures (forall k {:trigger steps[k]} | h < k < b :: !Reserves(states[k], steps[k])) ==> states[b].slot.In(Disconnected)
  {
    var t := states[h].lane.Sync().1;
    b := DeleteIsDecidedAtTheRead(states, steps, id, h, i);
    SameTicket(states, steps, id, h, i);
    assert states[b + 1] == Next(states[b], steps[b]);
    f := FindEnd(states, steps, t, Desired(states[b].slot), states[b].lane.stored, b + 1, i);
  }

  /**
    Exactly when a DELETE that answers 200 has left no durable record: when its write, at the instant
    `b` it read the desired state, found the entity disconnected or without access, or was told to
    keep what is stored where nothing was. If no POST reserved the entity before that read, it has.
   */
  lemma ConfirmedDeleteLeavesNothingIff(states: seq<Sys>, steps: seq<Step>, id: nat, h: nat, i: nat) returns (b: nat, f: nat)
    requires Execution(states, steps) && Disconnects(states, steps, id, h, i)
    ensures h < b < f < i && steps[b] == WriteBegins(states[h].lane.Sync().1) && steps[f] == WriteFinishes(states[h].lane.Sync().1, true)
    ensures var slot := states[b].slot;
      states[f + 1].lane.stored.None? <==>
        || slot.In(Disconnected) || slot.In(NoAccess)
        || (Desired(slot) == Keep && states[b].lane.stored.None?)
    ensures (forall k {:trigger steps[k]} | h < k < b :: !Reserves(states[k], steps[k])) ==> states[f + 1].lane.stored.None?
  {
    b, f := DeleteEnds(states, steps, id, h, i);
    NothingIsLeft(states[b].slot, states[b].lane.stored);
  }

  // ── Deletes are never forgotten ────────────────────────────────────────────

  /** The removal is still owed and will be attempted, or nothing stored is left to remove. */
  ghost predicate Owed(s: Sys) {
    && (s.slot.In(Disconnected) || s.slot.In(NoAccess))
    && (|| (exists t :: 0 <= t < |s.lane.runs| && s.lane.runs[t].phase.Waiting?)
        || (exists t :: 0 <= t < |s.lane.runs| && s.lane.runs[t].phase.Writing? && s.lane.runs[t].phase.want.Delete?)
        || s.lane.timers.armed != map[]
        || (s.lane.stored.None? && OnlyWrites(s.lane, Delete)))
  }

  lemma OwedOnSuccess(s: Sys, t: nat)
    requires Inv(s) && Owed(s) && s.lane.CanFinish(t, true)
    ensures Owed(Next(s, WriteFinishes(t, true)))
  {
    var l, after := s.lane, s.lane.Finish(t, true);
    FinishKeepsPromises(l, t, true);
    if u :| 0 <= u < |l.runs| && l.runs[u].phase.Waiting? {
      assert after.runs[u].phase.Waiting?;
    }
  }

  lemma OwedOnFailure(s: Sys, t: nat)
    requires Inv(s) && Owed(s) && s.lane.CanFinish(t, false) && !s.lane.stopped
    ensures Owed(Next(s, WriteFinishes(t, false)))
  {
    var l, after := s.lane, s.lane.Finish(t, false);
    FinishKeepsPromises(l, t, false);
    if u :| 0 <= u < |l.runs| && l.runs[u].phase.Waiting? {
      assert after.runs[u].phase.Waiting?;
    } else if l.runs[t].phase.want.Delete? {
      assert l.timers.made in after.timers.armed;
    } else {
      assert after.timers.armed == l.timers.armed;
    }
  }

  lemma OwedOnBegin(s: Sys, t: nat)
    requires Inv(s) && Owed(s) && s.lane.CanBegin(t)
    ensures Owed(Next(s, WriteBegins(t)))
  {
    assert s.lane.Begin(t, Delete).runs[t].phase == Writing(Delete, false);
  }

  lemma OwedOnLand(s: Sys, t: nat)
    requires Inv(s) && Owed(s) && s.lane.CanLand(t)
    ensures Owed(Next(s, WriteLands(t)))
  {
    var l, after := s.lane, s.lane.Land(t);
    if u :| 0 <= u < |l.runs| && (l.runs[u].phase.Waiting? || (l.runs[u].phase.Writing? && l.runs[u].phase.want.Delete?)) {
      assert after.runs[u].phase.Waiting? || (after.runs[u].phase.Writing? && after.runs[u].phase.want.Delete?);
    }
  }

  lemma OwedOnClean(s: Sys, t: nat)
    requires Inv(s) && Owed(s) && s.lane.CanClean(t)
    ensures Owed(Next(s, QueueCleans(t)))
  {
    var l, after := s.lane, s.lane.Clean(t);
    CleanKeepsPromises(l, t);
    if u :| 0 <= u < |l.runs| && (l.runs[u].phase.Waiting? || (l.runs[u].phase.Writing? && l.runs[u].phase.want.Delete?)) {
      assert after.runs[u] == l.runs[u];
    }
  }

  lemma OwedOnRetry(s: Sys, timer: nat)
    requires Inv(s) && Owed(s) && timer in s.lane.timers.armed
    ensures Owed(Next(s, RetryFires(timer)))
  {
    FireKeepsPromises(s.slot, s.lane, timer);
  }

  lemma OwedOnWrites(s: Sys, step: Step)
    requires Inv(s) && Owed(s) && Enabled(s, step) && IsWrite(step) && !step.StoreStops? && !s.lane.stopped
    ensures Owed(Next(s, step))
  {
    match step
    case WriteBegins(t) => OwedOnBegin(s, t);
    case WriteLands(t) => OwedOnLand(s, t);
    case WriteFinishes(t, ok) =>
      if ok {
        OwedOnSuccess(s, t);
      } else {
        OwedOnFailure(s, t);
      }
    case QueueCleans(t) => OwedOnClean(s, t);
    case RetryFires(timer) => OwedOnRetry(s, timer);
  }

  lemma DeleteOwes(s: Sys, id: nat)
    requires Inv(s) && id !in s.removals
    ensures Owed(Next(s, DeleteStart(id)))
  {
    SyncFrame(s.lane);
  }

  lemma FailureOwes(s: Sys, id: nat, lease: Revision)
    requires Inv(s) && s.slot.Current(lease)
    ensures Owed(FailPost(s, id, lease))
  {
    SyncFrame(s.lane);
  }

  /** No POST holds an entity whose removal is owed. */
  lemma OwedOnPosts(s: Sys, step: Step)
    requires Inv(s) && Owed(s) && Enabled(s, step) && (step.PostActivates? || step.PostStages? || step.PostResumes?)
    ensures Owed(Next(s, step))
  {
    assert PostInv(s.slot, s.lane, s.posts[step.id]);
  }

  lemma OwedOnHandlers(s: Sys, step: Step)
    requires Inv(s) && Owed(s) && Enabled(s, step) && !Reserves(s, step) && IsHandler(step)
    ensures Owed(Next(s, step))
  {
    if step.PostActivates? || step.PostStages? || step.PostResumes? {
      OwedOnPosts(s, step);
    } else if step.DeleteStart? {
      DeleteOwes(s, step.id);
    }
  }

  lemma OwedOnStep(s: Sys, step: Step)
    requires Inv(s) && Owed(s) && Enabled(s, step)
    requires !Reserves(s, step) && !step.Crash? && !step.StoreStops? && !s.lane.stopped
    ensures Owed(Next(s, step))
  {
    if IsHandler(step) {
      OwedOnHandlers(s, step);
    } else if IsWrite(step) {
      OwedOnWrites(s, step);
    } else if IsReload(step) {
      LocalStateWins(s, step);
    }
  }

  /** The steps after which the stored record, if any, has to go: a DELETE, a POST that failed, or a reload that finds the record kept for too long. */
  predicate Rejects(s: Sys, step: Step) {
    || step.DeleteStart?
    || (step.PostActivates? && step.outcome.Throws? && step.id in s.posts && s.posts[step.id].Activation? && s.slot.Current(s.posts[step.id].lease))
    || (step.PostResumes? && step.id in s.posts && s.posts[step.id].Syncing? && s.slot.Current(s.posts[step.id].lease)
          && s.lane.Answer(s.posts[step.id].ticket) == Some(false))
    || (step.ReloadDecides? && step.verdict.RetentionOver? && Fit(s))
  }

  lemma OverdueOwes(s: Sys)
    requires Inv(s) && Fit(s)
    ensures Owed(Decide(s, RetentionOver))
  {
    BegunFacts(s);
    SyncFrame(s.lane);
  }

  lemma RejectionOwes(s: Sys, step: Step)
    requires Inv(s) && Enabled(s, step) && Rejects(s, step)
    ensures Owed(Next(s, step))
  {
    if step.DeleteStart? {
      DeleteOwes(s, step.id);
    } else if step.ReloadDecides? {
      OverdueOwes(s);
    } else {
      FailureOwes(s, step.id, s.posts[step.id].lease);
    }
  }

  /**
    From a DELETE, from a POST that answers 503, or from a reload that finds the stored record kept for
    too long, the removal stays owed, however often its writes
    fail, until a POST reserves the entity, the process dies or the store is stopped. So when nothing
    is queued, in flight or armed any more, the record is gone.
   */
  lemma {:induction false} RemovalIsNeverForgotten(states: seq<Sys>, steps: seq<Step>, h: nat, j: nat)
    requires Execution(states, steps) && h < j < |states| && Rejects(states[h], steps[h])
    requires forall k {:trigger steps[k]} | h < k < j :: !Reserves(states[k], steps[k]) && !steps[k].Crash? && !steps[k].StoreStops?
    requires forall k {:trigger states[k]} | h < k < j :: !states[k].lane.stopped
    ensures Owed(states[j])
    ensures Quiet(states[j].lane) ==> states[j].lane.stored.None?
    decreases j
  {
    if j == h + 1 {
      RunInv(states, steps, h);
      RejectionOwes(states[h], steps[h]);
    } else {
      RemovalIsNeverForgotten(states, steps, h, j - 1);
      RunInv(states, steps, j - 1);
      OwedOnStep(states[j - 1], steps[j - 1]);
    }
  }

  // ── Leases ─────────────────────────────────────────────────────────────────

  function SettleOps(s: Sys): seq<Operation<Grant>> {
    if s.lease.Some? then [OpAbandonRestore(s.lease.value)] else []
  }

  function BeginOps(s: Sys): seq<Operation<Grant>>
    requires Fit(s)
  {
    if s.reload.lease.Some? then [] else [OpBeginRestore(s.reload.value.value.revision)]
  }

  function VerdictOps(s: Sys, verdict: Verdict): seq<Operation<Grant>>
    requires Fit(s)
  {
    var held := s.reload.value.value;
    var own := if s.reload.lease.Some? then s.reload.lease.value else held.revision;
    if verdict.RetentionOver? then [OpAbandonRestore(own)]
    else if held.RevokedHeld? then [OpTombstone(own, held.marks)]
    else match verdict
      case Lapsed => [OpRestore(own, held.grant)]
      case Refused => [OpAbandonRestore(own)]
      case Accepted => []
  }

  function DecideOps(s: Sys, verdict: Verdict): seq<Operation<Grant>>
    requires s.reload.Fetched?
  {
    if Fit(s) then BeginOps(s) + VerdictOps(s, verdict) else SettleOps(s)
  }

  function DetachOps(s: Sys, marks: Marks): seq<Operation<Grant>>
    requires s.reload.Failing?
  {
    var own := s.reload.own;
    if !s.slot.Current(own) then SettleOps(s)
    else match s.reload.failure
      case NodeRevoked => [OpTombstone(own, marks)]
      case GrantExpired => [OpRestore(own, s.reload.grant)]
      case PolicyRejected => [OpAbandonRestore(own)]
      case NodeError => if s.phase.Ready? && s.pending then [] else SettleOps(s)
  }

  function FailOps(s: Sys, lease: Revision): seq<Operation<Grant>> { if s.slot.Current(lease) then [OpFail(lease)] else [] }

  /** The store operations that a step performs on the entity. */
  function OperationsOf(s: Sys, step: Step): seq<Operation<Grant>>
    requires Enabled(s, step)
  {
    match step
    case Touch => [OpSnap]
    case Elsewhere => [OpElsewhere]
    case PostStart(_, expected, _) => [OpReserve(Some(expected))] + (if Reserves(s, step) then SettleOps(s) else [])
    case PostActivates(id, outcome) => if outcome.Throws? then FailOps(s, s.posts[id].lease) else []
    case PostStages(id) => [OpStage(s.posts[id].lease, s.posts[id].grant)]
    case PostResumes(id) =>
      var p := s.posts[id];
      if !s.slot.Current(p.lease) then []
      else if !s.lane.Answer(p.ticket).value then FailOps(s, p.lease)
      else [OpCommit(p.lease, p.grant)]
    case DeleteStart(_) => [OpDisconnect] + SettleOps(s)
    case ReloadBegins =>
      if (if s.lease.Some? then !s.slot.Current(s.lease.value) else s.slot.Known()) then SettleOps(s) else []
    case ReloadReadFails => if s.phase.Ready? && s.pending then [] else SettleOps(s)
    case ReloadDecides(verdict) => DecideOps(s, verdict)
    case ReloadActivates(outcome, _) =>
      (if outcome.Succeeds? then [OpRestore(s.reload.own, s.reload.grant)] else [])
      + (if outcome.Throws? && s.slot.Current(s.reload.own) then []
         else if outcome.Succeeds? && s.slot.Restore(s.reload.own, s.reload.grant).1 then []
         else SettleOps(s))
    case ReloadDetaches(marks) => DetachOps(s, marks)
    case _ => []
  }

  lemma DecidePerforms(s: Sys, verdict: Verdict)
    requires s.reload.Fetched?
    ensures Decide(s, verdict).slot == PerformAll(s.slot, DecideOps(s, verdict))
  {
    if Fit(s) {
      PerformConcat(s.slot, BeginOps(s), VerdictOps(s, verdict));
    }
  }

  lemma DetachPerforms(s: Sys, marks: Marks)
    requires s.reload.Failing?
    ensures DetachReload(s, marks).slot == PerformAll(s.slot, DetachOps(s, marks))
  {
  }

  lemma ActivatesPerforms(s: Sys, step: Step)
    requires Enabled(s, step) && step.ReloadActivates?
    ensures Next(s, step).slot == PerformAll(s.slot, OperationsOf(s, step))
  {
    var ops := OperationsOf(s, step);
    var restore := if step.outcome.Succeeds? then [OpRestore(s.reload.own, s.reload.grant)] else [];
    PerformConcat(s.slot, restore, ops[|restore|..]);
    assert ops == restore + ops[|restore|..];
  }

  lemma StartsPerform(s: Sys, step: Step)
    requires Enabled(s, step) && (step.PostStart? || step.DeleteStart?)
    ensures Next(s, step).slot == PerformAll(s.slot, OperationsOf(s, step))
  {
    match step
    case PostStart(_, expected, _) => PerformConcat(s.slot, [OpReserve(Some(expected))], if Reserves(s, step) then SettleOps(s) else []);
    case DeleteStart(_) => PerformConcat(s.slot, [OpDisconnect], SettleOps(s));
  }

  /** Within one process, what a step does to the entity is a run of the store's own operations. */
  lemma StepsPerform(s: Sys, step: Step)
    requires Enabled(s, step) && !step.Crash?
    ensures Next(s, step).slot == PerformAll(s.slot, OperationsOf(s, step))
  {
    match step
    case ReloadDecides(verdict) => DecidePerforms(s, verdict);
    case ReloadDetaches(marks) => DetachPerforms(s, marks);
    case PostStart(_, _, _) => StartsPerform(s, step);
    case DeleteStart(_) => StartsPerform(s, step);
    case ReloadActivates(_, _) => ActivatesPerforms(s, step);
    case _ =>
  }

  /** Within one process, a lease that has once stopped being current never becomes current again. */
  lemma {:induction false} LeaseStaysDead(states: seq<Sys>, steps: seq<Step>, i: nat, j: nat, lease: Revision)
    requires Execution(states, steps) && i <= j < |states|
    requires states[i].slot.Covers(lease) && !states[i].slot.Current(lease)
    requires forall k {:trigger steps[k]} | i <= k < j :: !steps[k].Crash?
    ensures states[j].slot.Covers(lease) && !states[j].slot.Current(lease)
    decreases j
  {
    if i < j {
      LeaseStaysDead(states, steps, i, j - 1, lease);
      StepsPerform(states[j - 1], steps[j - 1]);
      CoversForever(states[j - 1].slot, OperationsOf(states[j - 1], steps[j - 1]), lease);
    }
  }

  // ── Where the handlers promise more ────────────────────────────────────────

  const OLD := Revision(0, 1)
  const OLD_GRANT := Grant("m0", Some("t0"), None)
  const NEW_GRANT := Grant("m1", Some("t1"), None)

  /** DELETE; before its write runs, a POST reserves the entity; the write keeps; 200; crash; reload. */
  const UNDOING: seq<Step> := [
    DeleteStart(0), PostStart(0, Revision(1, 1), NEW_GRANT), WriteBegins(0), WriteFinishes(0, true), DeleteAnswers(0, true),
    Crash(2)] + RELOADING

  const RELOADING: seq<Step> := [IndexLoads(true), ReloadBegins, ReloadReads, ReloadDecides(Accepted), ReloadActivates(Succeeds, NodeError)]

  lemma RecordIsRead(instance: nat, stored: Option<Held>)
    ensures var s := Boot(instance, stored); var s1 := s.(phase := Ready, pending := true); var s2 := s1.(reload := Fetching(None));
      && Enabled(s, IndexLoads(true)) && Next(s, IndexLoads(true)) == s1
      && Enabled(s1, ReloadBegins) && Next(s1, ReloadBegins) == s2
      && Enabled(s2, ReloadReads) && Next(s2, ReloadReads) == s1.(reload := Fetched(None, stored))
  {
  }

  lemma RecordIsActivated(instance: nat, revision: Revision, grant: Grant)
    ensures var stored := Some(ActiveHeld(revision, grant));
      var s1 := Boot(instance, stored).(phase := Ready, pending := true); var s3 := s1.(reload := Fetched(None, stored));
      var s4 := s1.(slot := Slot(instance, 0, Some(Snapshot(revision, Restoring, None, None)), None), lease := Some(revision),
                    reload := Reactivating(revision, grant));
      && Next(s3, ReloadDecides(Accepted)) == s4
      && Next(s4, ReloadActivates(Succeeds, NodeError)) ==
           Boot(instance, stored).(phase := Ready, slot := Slot(instance, 0, Some(Snapshot(revision, Active, Some(grant), None)), None))
  {
  }

  /** A restart over a stored active record, with nothing else going on, makes it active again. */
  lemma OldRecordIsReloaded(instance: nat, revision: Revision, grant: Grant) returns (states: seq<Sys>)
    requires revision.instance < instance
    ensures |states| == 6 && states[0] == Boot(instance, Some(ActiveHeld(revision, grant)))
    ensures forall i {:trigger RELOADING[i]} | 0 <= i < 5 :: Enabled(states[i], RELOADING[i]) && states[i + 1] == Next(states[i], RELOADING[i])
    ensures states[5].slot.access == Some(Snapshot(revision, Active, Some(grant), None))
  {
    var stored := Some(ActiveHeld(revision, grant));
    var s0 := Boot(instance, stored);
    var s1 := s0.(phase := Ready, pending := true);
    RecordIsRead(instance, stored);
    RecordIsActivated(instance, revision, grant);
    var s3 := s1.(reload := Fetched(None, stored));
    var s4 := Next(s3, ReloadDecides(Accepted));
    states := [s0, s1, s1.(reload := Fetching(None)), s3, s4, Next(s4, ReloadActivates(Succeeds, NodeError))];
  }

  const OLD_HELD := Some(ActiveHeld(OLD, OLD_GRANT))
  const QUEUED := Queue(0, Some(0), Some(0), None, 0)
  const READ := Queue(0, Some(0), None, None, 0)

  /** The run up to its crash: the DELETE's ticket waits, the POST reserves, the write reads and keeps. */
  const DISCONNECTED := Sys(
    Slot(1, 1, Some(Snapshot(Revision(1, 1), Disconnected, None, None)), None),
    Lane(OLD_HELD, Some(QUEUED), [DelegationStores.Run(0, None, Waiting)], EMPTY, false),
    Booting, false, None, Idle, map[], map[0 := Removing(Revision(1, 1), 0)])
  const RESERVED := DISCONNECTED.(
    slot := Slot(1, 2, Some(Snapshot(Revision(1, 2), Activating, None, None)), None),
    posts := map[0 := Activation(Revision(1, 2), NEW_GRANT)])
  const READING := RESERVED.(lane := Lane(OLD_HELD, Some(READ), [DelegationStores.Run(0, None, Writing(Keep, false))], EMPTY, false))
  const RESOLVED := RESERVED.(lane := Lane(OLD_HELD, Some(READ), [DelegationStores.Run(0, None, Settling(true))], EMPTY, false))
  const CONFIRMED := RESOLVED.(removals := map[0 := RemovalAnswered(true)])

  lemma HandlersStart()
    ensures Next(Boot(1, OLD_HELD), DeleteStart(0)) == DISCONNECTED
    ensures Enabled(DISCONNECTED, PostStart(0, Revision(1, 1), NEW_GRANT))
    ensures Next(DISCONNECTED, PostStart(0, Revision(1, 1), NEW_GRANT)) == RESERVED
  {
  }

  lemma WriteKeeps()
    ensures Enabled(RESERVED, WriteBegins(0)) && Next(RESERVED, WriteBegins(0)) == READING
    ensures Enabled(READING, WriteFinishes(0, true)) && Next(READING, WriteFinishes(0, true)) == RESOLVED
  {
    assert READING.lane.runs == RESERVED.lane.runs[0 := DelegationStores.Run(0, None, Writing(Keep, false))];
    assert RESOLVED.lane.runs == READING.lane.runs[0 := DelegationStores.Run(0, None, Settling(true))];
  }

  lemma KeepingDeleteIsConfirmed()
    ensures Enabled(RESOLVED, DeleteAnswers(0, true)) && Next(RESOLVED, DeleteAnswers(0, true)) == CONFIRMED
    ensures Enabled(CONFIRMED, Crash(2)) && Next(CONFIRMED, Crash(2)) == Boot(2, OLD_HELD)
  {
  }

  const FIRST: seq<Sys> := [Boot(1, OLD_HELD), DISCONNECTED, RESERVED, READING, RESOLVED, CONFIRMED, Boot(2, OLD_HELD)]

  lemma FirstSteps(i: nat)
    requires i < 6
    ensures Enabled(FIRST[i], UNDOING[i]) && FIRST[i + 1] == Next(FIRST[i], UNDOING[i])
  {
    if i < 2 { HandlersStart(); }
    else if i < 4 { WriteKeeps(); }
    else { KeepingDeleteIsConfirmed(); }
  }

  lemma Undone(states: seq<Sys>, second: seq<Sys>, i: nat)
    requires |second| == 6 && second[0] == Boot(2, OLD_HELD) && states == FIRST[..6] + second && i < 11
    requires forall k {:trigger RELOADING[k]} | 0 <= k < 5 :: Enabled(second[k], RELOADING[k]) && second[k + 1] == Next(second[k], RELOADING[k])
    ensures Enabled(states[i], UNDOING[i]) && states[i + 1] == Next(states[i], UNDOING[i])
  {
    if i < 6 {
      FirstSteps(i);
      assert states[i] == FIRST[i] && states[i + 1] == FIRST[i + 1];
    } else {
      assert UNDOING[i] == RELOADING[i - 6] && states[i] == second[i - 6] && states[i + 1] == second[i - 5];
    }
  }

  lemma UndoingRuns() returns (states: seq<Sys>)
    ensures Execution(states, UNDOING) && states[5] == CONFIRMED
    ensures states[11].slot.access == Some(Snapshot(OLD, Active, Some(OLD_GRANT), None))
  {
    var second := OldRecordIsReloaded(2, OLD, OLD_GRANT);
    states := FIRST[..6] + second;
    assert Fair(1, OLD_HELD) && states[0] == Boot(1, OLD_HELD);
    forall i {:trigger UNDOING[i]} | 0 <= i < 11 ensures Enabled(states[i], UNDOING[i]) && states[i + 1] == Next(states[i], UNDOING[i]) {
      Undone(states, second, i);
    }
  }

  /**
    A Disconnect that was confirmed can still be undone by a restart, when a POST reserved the entity
    before the DELETE's write read the state: the write then keeps the old record and resolves true.
   */
  lemma ConfirmedDisconnectCanBeUndone() returns (states: seq<Sys>)
    ensures Execution(states, UNDOING)
    ensures Disconnects(states, UNDOING, 0, 0, 4)
    ensures states[5].lane.stored == Some(ActiveHeld(OLD, OLD_GRANT))
    ensures states[11].slot.access == Some(Snapshot(OLD, Active, Some(OLD_GRANT), None))
  {
    states := UndoingRuns();
    assert UNDOING[..5] == [DeleteStart(0), PostStart(0, Revision(1, 1), NEW_GRANT), WriteBegins(0), WriteFinishes(0, true), DeleteAnswers(0, true)];
  }

  // ── A write of a former process ────────────────────────────────────────────

  /** A write that was in flight at a crash reaches the space after the restart, which no step of the protocol does. */
  function OrphanLands(s: Sys, want: Want<Held>): Sys { s.(lane := s.lane.(stored := Effect(want, s.lane.stored))) }

  /** A confirmed connection survives such a write exactly when the write changes nothing. */
  lemma OrphanKeepsIff(s: Sys, want: Want<Held>, revision: Revision, grant: Grant)
    requires Keeps(s, revision, grant)
    ensures Keeps(OrphanLands(s, want), revision, grant) <==> want.Keep? || want == Put(ActiveHeld(revision, grant))
  {
  }

  /** A confirmed Disconnect survives it exactly when it is not a put. */
  lemma OrphanRemovesIff(s: Sys, want: Want<Held>)
    requires Removed(s)
    ensures Removed(OrphanLands(s, want)) <==> !want.Put?
  {
  }

  /** A put of a former process that lands after a confirmed Disconnect brings its connection back at the next restart. */
  lemma OrphanUndoesDisconnect(s: Sys, revision: Revision, grant: Grant) returns (states: seq<Sys>)
    requires Removed(s) && revision.instance <= s.slot.instance
    ensures var t := OrphanLands(s, Put(ActiveHeld(revision, grant))); var instance := s.slot.instance + 1;
      && |states| == 6 && Enabled(t, Crash(instance)) && states[0] == Next(t, Crash(instance))
      && forall i {:trigger RELOADING[i]} | 0 <= i < 5 :: Enabled(states[i], RELOADING[i]) && states[i + 1] == Next(states[i], RELOADING[i])
    ensures ActiveAgain(states[5], revision, grant)
  {
    states := OldRecordIsReloaded(s.slot.instance + 1, revision, grant);
  }
}
