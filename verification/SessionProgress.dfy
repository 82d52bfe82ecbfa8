/**
  What the handlers of the session protocol answer, and when: every state of a POST has its exact
  condition, a POST that nobody supersedes confirms, and from every reachable state one can.
 */
module SessionProgress {
  import opened DelegationStores
  import opened Options
  import opened SessionInvariant
  import opened SessionProtocol
  import opened SessionStores
  import opened SessionTheorems

  // ── The answers of a POST ──────────────────────────────────────────────────

  /** POST `id` gets to `p` in this step. */
  predicate Becomes(s: Sys, step: Step, id: nat, p: Post)
    requires Enabled(s, step)
  {
    id in Next(s, step).posts && Next(s, step).posts[id] == p && (id in s.posts ==> s.posts[id] != p)
  }

  /** A step of POST `id` itself. */
  predicate IsPost(step: Step, id: nat) {
    (step.PostStart? || step.PostActivates? || step.PostStages? || step.PostResumes? || step.PostDetaches?) && step.id == id
  }

  lemma DecideLeavesPosts(s: Sys, verdict: Verdict)
    requires s.reload.Fetched?
    ensures Decide(s, verdict).posts == s.posts
  {
  }

  lemma ReloadsLeavePosts(s: Sys, step: Step)
    requires Enabled(s, step) && IsReload(step)
    ensures Next(s, step).posts == s.posts
  {
    match step
    case ReloadDecides(verdict) => DecideLeavesPosts(s, verdict);
    case _ =>
  }

  lemma PostFrame(s: Sys, step: Step, id: nat)
    requires Enabled(s, step) && !step.Crash? && !IsPost(step, id)
    ensures id in Next(s, step).posts <==> id in s.posts
    ensures id in s.posts ==> Next(s, step).posts[id] == s.posts[id]
  {
    if IsReload(step) {
      ReloadsLeavePosts(s, step);
    }
  }

  lemma OthersBecomeNothing(s: Sys, step: Step, id: nat, p: Post)
    requires Enabled(s, step) && !IsPost(step, id)
    ensures !Becomes(s, step, id, p)
  {
    if !step.Crash? {
      PostFrame(s, step, id);
    }
  }

  lemma OwnConfirmedIff(s: Sys, step: Step, id: nat, revision: Revision, grant: Grant)
    requires Enabled(s, step) && IsPost(step, id) && !step.PostResumes?
    ensures !Becomes(s, step, id, PostAnswered(Confirmed(revision, grant)))
  {
  }

  /** What a POST finds when its write has answered true and its lease is current. */
  lemma ResumedIff(s: Sys, id: nat, revision: Revision, grant: Grant)
    requires Inv(s) && Enabled(s, PostResumes(id))
    ensures ResumePost(s, id).posts[id] == PostAnswered(Confirmed(revision, grant)) <==>
              && s.posts[id].lease == revision && s.posts[id].grant == grant
              && s.slot.Current(revision) && s.lane.Answer(s.posts[id].ticket) == Some(true)
    ensures ResumePost(s, id).posts[id] == PostAnswered(Confirmed(revision, grant)) ==>
              ActiveAgain(ResumePost(s, id), revision, grant) && s.lane.stored == Some(ActiveHeld(revision, grant)) && ResumePost(s, id).lane == s.lane
  {
    assert PostInv(s.slot, s.lane, s.posts[id]);
  }

  /**
    200 exactly when the write that the POST waits for has answered true and its lease is current; the
    entity is then active, and the record stored, under the revision that is answered.
   */
  lemma ConfirmedIff(s: Sys, step: Step, id: nat, revision: Revision, grant: Grant)
    requires Inv(s) && Enabled(s, step)
    ensures Becomes(s, step, id, PostAnswered(Confirmed(revision, grant))) <==>
              && step == PostResumes(id) && s.posts[id].lease == revision && s.posts[id].grant == grant
              && s.slot.Current(revision) && s.lane.Answer(s.posts[id].ticket) == Some(true)
    ensures Becomes(s, step, id, PostAnswered(Confirmed(revision, grant))) ==>
              ActiveAgain(Next(s, step), revision, grant) && Next(s, step).lane.stored == Some(ActiveHeld(revision, grant))
  {
    if !IsPost(step, id) {
      OthersBecomeNothing(s, step, id, PostAnswered(Confirmed(revision, grant)));
    } else if step.PostResumes? {
      ResumedIff(s, id, revision, grant);
    } else {
      OwnConfirmedIff(s, step, id, revision, grant);
    }
  }

  /** The POST looks at the lease it holds and would go on to another await, or answer, if it were current. */
  predicate LooksAgain(s: Sys, step: Step, id: nat)
    requires Enabled(s, step)
  {
    step == PostStages(id) || step == PostResumes(id) || (step.PostActivates? && step.id == id && !step.outcome.Succeeds?)
  }

  /** 409 exactly when the revision it was told is not the present one, or the lease it reserved is current no more. */
  lemma StaleIff(s: Sys, step: Step, id: nat)
    requires Inv(s) && Enabled(s, step)
    ensures Becomes(s, step, id, PostAnswered(Stale)) <==>
              || (step.PostStart? && step.id == id && !s.slot.Snap().Current(step.expected))
              || (LooksAgain(s, step, id) && !s.slot.Current(s.posts[id].lease))
  {
    if !IsPost(step, id) {
      OthersBecomeNothing(s, step, id, PostAnswered(Stale));
    } else if LooksAgain(s, step, id) {
      OwnStaleIff(s, step, id);
    }
  }

  lemma OwnStaleIff(s: Sys, step: Step, id: nat)
    requires Inv(s) && Enabled(s, step) && LooksAgain(s, step, id)
    ensures Becomes(s, step, id, PostAnswered(Stale)) <==> !s.slot.Current(s.posts[id].lease)
  {
    assert PostInv(s.slot, s.lane, s.posts[id]);
  }

  /** 503 exactly when the activation threw or the write answered false, under a lease that is current; the removal is then owed. */
  lemma FailedIff(s: Sys, step: Step, id: nat)
    requires Inv(s) && Enabled(s, step)
    ensures Becomes(s, step, id, Detaching) <==>
              && LooksAgain(s, step, id) && s.slot.Current(s.posts[id].lease)
              && (step.PostActivates? || (step.PostResumes? && s.lane.Answer(s.posts[id].ticket) == Some(false)))
    ensures Becomes(s, step, id, Detaching) ==> Owed(Next(s, step))
  {
    if !IsPost(step, id) {
      OthersBecomeNothing(s, step, id, Detaching);
    } else if LooksAgain(s, step, id) {
      OwnFailedIff(s, step, id);
    }
  }

  lemma OwnFailedIff(s: Sys, step: Step, id: nat)
    requires Inv(s) && Enabled(s, step) && LooksAgain(s, step, id)
    ensures Becomes(s, step, id, Detaching) <==> Rejects(s, step)
    ensures Rejects(s, step) ==> Owed(Next(s, step))
  {
    assert PostInv(s.slot, s.lane, s.posts[id]);
    if Rejects(s, step) {
      RejectionOwes(s, step);
    }
  }

  /** ... and it answers once the candidates are detached. */
  lemma UnavailableIff(s: Sys, step: Step, id: nat)
    requires Enabled(s, step)
    ensures Becomes(s, step, id, PostAnswered(Unavailable)) <==> step == PostDetaches(id)
  {
    if !IsPost(step, id) {
      OthersBecomeNothing(s, step, id, PostAnswered(Unavailable));
    }
  }

  lemma OwnReservedIff(s: Sys, step: Step, id: nat, lease: Revision, grant: Grant)
    requires Enabled(s, step) && IsPost(step, id)
    ensures Becomes(s, step, id, Activation(lease, grant)) <==>
              step.PostStart? && step.grant == grant && Reserves(s, step) && lease == s.slot.Snap().Fresh()
  {
  }

  /** A reservation makes the entity activating under the new lease, and whatever was reloading it is forgotten. */
  lemma Reserved(s: Sys, id: nat, expected: Revision, grant: Grant)
    requires s.slot.Snap().Current(expected)
    ensures var t, lease := StartPost(s, id, expected, grant), s.slot.Snap().Fresh();
      && t.slot.Current(lease) && t.slot.In(Activating) && t.slot.Covers(lease) && t.slot.persisting.None?
      && t.posts == s.posts[id := Activation(lease, grant)] && t.lane == s.lane
      && !t.pending && t.lease.None? && lease.instance == s.slot.instance == t.slot.instance
  {
  }

  /** A POST holds a lease exactly when the revision it was told is the present one; the entity is then activating under it. */
  lemma ReservedIff(s: Sys, step: Step, id: nat, lease: Revision, grant: Grant)
    requires Enabled(s, step)
    ensures Becomes(s, step, id, Activation(lease, grant)) <==>
              step.PostStart? && step.id == id && step.grant == grant && Reserves(s, step) && lease == s.slot.Snap().Fresh()
    ensures Becomes(s, step, id, Activation(lease, grant)) ==>
              && Next(s, step).slot.Current(lease) && Next(s, step).slot.In(Activating)
              && !Next(s, step).pending && Next(s, step).lease.None?
  {
    if IsPost(step, id) {
      OwnReservedIff(s, step, id, lease, grant);
      if Becomes(s, step, id, Activation(lease, grant)) {
        Reserved(s, id, step.expected, grant);
      }
    } else {
      OthersBecomeNothing(s, step, id, Activation(lease, grant));
    }
  }

  lemma ActivatedIff(s: Sys, step: Step, id: nat, lease: Revision, grant: Grant)
    requires Enabled(s, step)
    ensures Becomes(s, step, id, Activated(lease, grant)) <==> step == PostActivates(id, Succeeds) && s.posts[id] == Activation(lease, grant)
  {
    if !IsPost(step, id) {
      OthersBecomeNothing(s, step, id, Activated(lease, grant));
    }
  }

  /** What staging leaves behind: the record is what any write that begins now puts, and none has. */
  lemma StagedWaits(s: Sys, id: nat)
    requires Inv(s) && Enabled(s, PostStages(id)) && s.slot.Current(s.posts[id].lease)
    ensures var p, t := s.posts[id], StagePost(s, id); var ticket := s.lane.Sync().1;
      && t.posts == s.posts[id := Syncing(p.lease, p.grant, ticket)]
      && Desired(t.slot) == Put(ActiveHeld(p.lease, p.grant))
      && ticket < |t.lane.runs| && t.lane.runs[ticket].phase.Waiting?
  {
    assert PostInv(s.slot, s.lane, s.posts[id]);
    SyncFrame(s.lane);
  }

  /** It stages its record, and waits for a write that has not read the state yet, exactly when the lease is still current. */
  lemma StagedIff(s: Sys, step: Step, id: nat, lease: Revision, grant: Grant, ticket: nat)
    requires Inv(s) && Enabled(s, step)
    ensures Becomes(s, step, id, Syncing(lease, grant, ticket)) <==>
              step == PostStages(id) && s.posts[id] == Activated(lease, grant) && s.slot.Current(lease) && ticket == s.lane.Sync().1
    ensures Becomes(s, step, id, Syncing(lease, grant, ticket)) ==>
              && Desired(Next(s, step).slot) == Put(ActiveHeld(lease, grant))
              && ticket < |Next(s, step).lane.runs| && Next(s, step).lane.runs[ticket].phase.Waiting?
  {
    if !IsPost(step, id) {
      OthersBecomeNothing(s, step, id, Syncing(lease, grant, ticket));
    } else if step.PostStages? && s.slot.Current(s.posts[id].lease) {
      StagedWaits(s, id);
    }
  }

  /** Another ceremony or a Disconnect takes the entity over. */
  predicate Supersedes(s: Sys, step: Step) { Reserves(s, step) || step.DeleteStart? }

  // ── The answers of a DELETE ────────────────────────────────────────────────

  /** 200 exactly when the removal's write has answered true and the candidates were detached, 503 otherwise. */
  lemma DeleteAnswersIff(s: Sys, step: Step, id: nat)
    requires Enabled(s, step) && !step.Crash? && id in s.removals && s.removals[id].Removing?
    ensures id in Next(s, step).removals
    ensures Next(s, step).removals[id] == RemovalAnswered(true) <==>
              step == DeleteAnswers(id, true) && s.lane.Answer(s.removals[id].ticket) == Some(true)
    ensures Next(s, step).removals[id] == RemovalAnswered(false) <==>
              step.DeleteAnswers? && step.id == id && (!step.detached || s.lane.Answer(s.removals[id].ticket) == Some(false))
  {
    if !(step.DeleteAnswers? && step.id == id) {
      RemovalFrame(s, step, id);
    }
  }

  // ── A revocation ───────────────────────────────────────────────────────────

  predicate RevokedAs(slot: Slot<Grant>, revision: Revision, marks: Marks) {
    slot.access == Some(Snapshot(revision, Revoked, None, Some(marks)))
  }

  /** When the node reports the reloaded grant revoked, the entity is revoked at once and its tombstone waits to be written. */
  lemma RevocationIsRecorded(s: Sys, marks: Marks)
    requires Inv(s) && s.reload.Failing? && s.reload.failure.NodeRevoked? && s.slot.Current(s.reload.own)
    ensures var t := DetachReload(s, marks);
      && RevokedAs(t.slot, s.reload.own, marks) && t.reload.Idle? && !t.pending
      && exists w :: 0 <= w < |t.lane.runs| && t.lane.runs[w].phase.Waiting?
  {
    assert s.slot.In(Restoring);
    SyncFrame(s.lane);
    assert DetachReload(s, marks).lane == s.lane.Sync().0;
  }

  /** What is written for a revoked entity, whoever asks for the write. */
  lemma RevocationIsWritten(s: Sys, t: nat, revision: Revision, marks: Marks)
    requires RevokedAs(s.slot, revision, marks) && Enabled(s, WriteBegins(t))
    ensures Next(s, WriteBegins(t)).lane.runs[t].phase == Writing(Put(RevokedHeld(revision, marks)), false)
  {
  }

  lemma RevocationOnStep(s: Sys, step: Step, revision: Revision, marks: Marks)
    requires Inv(s) && Enabled(s, step) && !Supersedes(s, step) && !step.Crash? && RevokedAs(s.slot, revision, marks)
    ensures RevokedAs(Next(s, step).slot, revision, marks)
  {
    if IsReload(step) {
      LocalStateWins(s, step);
    } else if step.PostActivates? || step.PostStages? || step.PostResumes? {
      assert PostInv(s.slot, s.lane, s.posts[step.id]);
    }
  }

  /** It stays reported, under the same revision, until a ceremony or a Disconnect. */
  lemma {:induction false} RevocationStays(states: seq<Sys>, steps: seq<Step>, i: nat, j: nat, revision: Revision, marks: Marks)
    requires Execution(states, steps) && i <= j < |states| && RevokedAs(states[i].slot, revision, marks)
    requires forall k {:trigger steps[k]} | i <= k < j :: !Supersedes(states[k], steps[k]) && !steps[k].Crash?
    ensures RevokedAs(states[j].slot, revision, marks)
    decreases j
  {
    if i < j {
      RevocationStays(states, steps, i, j - 1, revision, marks);
      RunInv(states, steps, j - 1);
      RevocationOnStep(states[j - 1], steps[j - 1], revision, marks);
    }
  }

  // ── The other ends of a reload ─────────────────────────────────────────────

  /** The reload is over, the entity has no access, and the stored record is left for the next process. */
  predicate GivenUp(s: Sys, t: Sys) { t.slot.In(NoAccess) && t.reload.Idle? && !t.pending && t.lane == s.lane }

  /** The reload waits for its next attempt under the lease it has. */
  predicate WillRetry(s: Sys, t: Sys) { t == s.(reload := Idle) && Enabled(t, ReloadBegins) }

  /** A record that the policy refuses, when it is read or when it is activated, is given up but not removed. */
  lemma RefusedIsGivenUp(s: Sys, marks: Marks)
    requires Inv(s)
    ensures Fit(s) && s.reload.value.value.ActiveHeld? ==> GivenUp(s, Decide(s, Refused))
    ensures s.reload.Failing? && s.slot.Current(s.reload.own) && s.reload.failure.PolicyRejected? ==> GivenUp(s, DetachReload(s, marks))
  {
    if Fit(s) {
      BegunFacts(s);
    }
  }

  /** A failed read or a node that could not be reached is tried again for as long as the process reloads at all. */
  lemma FailureIsRetried(s: Sys, marks: Marks)
    requires Inv(s) && s.phase.Ready? && s.pending
    ensures s.reload.Fetching? ==> WillRetry(s, Next(s, ReloadReadFails))
    ensures s.reload.Failing? && s.slot.Current(s.reload.own) && s.reload.failure.NodeError? ==> WillRetry(s, DetachReload(s, marks))
  {
  }

  /** A process that is shutting down does not try again. */
  lemma StoppedIsNotRetried(s: Sys, marks: Marks)
    requires Inv(s)
    ensures var t := Next(s, HeldStops);
      && (t.reload.Fetching? ==> var u := Next(t, ReloadReadFails); u.reload.Idle? && !u.pending && !Enabled(u, ReloadBegins))
      && (t.reload.Failing? && t.reload.failure.NodeError? ==> var u := DetachReload(t, marks); u.reload.Idle? && !u.pending)
  {
  }

  /** A grant found expired at its activation is loaded all the same, under its revision, so that it can be reported. */
  lemma ExpiredIsLoaded(s: Sys, marks: Marks)
    requires Inv(s) && s.reload.Failing? && s.slot.Current(s.reload.own) && s.reload.failure.GrantExpired?
    ensures ActiveAgain(DetachReload(s, marks), s.reload.own, s.reload.grant) && DetachReload(s, marks).lane == s.lane
  {
  }

  /** A process that starts over this stored value, up to what its reload decides about it. */
  function Reread(instance: nat, stored: Option<Held>): Sys {
    Boot(instance, stored).(phase := Ready, pending := true, reload := Fetched(None, stored))
  }

  /** What a write of the desired state leaves behind comes back at the next restart: a revocation as that revocation. */
  lemma RevocationComesBack(s: Sys, instance: nat, before: Option<Held>, verdict: Verdict, revision: Revision, marks: Marks)
    requires RevokedAs(s.slot, revision, marks) && !verdict.RetentionOver?
    ensures var stored := Effect(Desired(s.slot), before);
      && Next(Next(Next(Boot(instance, stored), IndexLoads(true)), ReloadBegins), ReloadReads) == Reread(instance, stored)
      && RevokedAs(Decide(Reread(instance, stored), verdict).slot, revision, marks)
  {
    RecordIsRead(instance, Effect(Desired(s.slot), before));
  }

  /** A connection comes back as that connection. */
  lemma ConnectionComesBack(s: Sys, instance: nat, before: Option<Held>, failure: Failure, revision: Revision, grant: Grant)
    requires ActiveAgain(s, revision, grant) && grant.transcripts.Some?
    ensures var stored := Effect(Desired(s.slot), before);
      && Next(Next(Next(Boot(instance, stored), IndexLoads(true)), ReloadBegins), ReloadReads) == Reread(instance, stored)
      && Decide(Reread(instance, stored), Accepted).reload == Reactivating(revision, grant)
      && ActiveAgain(ActivateReload(Decide(Reread(instance, stored), Accepted), Succeeds, failure), revision, grant)
  {
    RecordIsRead(instance, Effect(Desired(s.slot), before));
  }

  // ── A POST that nobody supersedes ──────────────────────────────────────────

  /** POST `id` holds this lease and grant, or has given them up. */
  predicate Carries(s: Sys, id: nat, lease: Revision, grant: Grant) {
    && id in s.posts
    && (s.posts[id].Holding() ==> s.posts[id].lease == lease && s.posts[id].grant == grant)
  }

  lemma CarriesOnStep(s: Sys, step: Step, id: nat, lease: Revision, grant: Grant)
    requires Enabled(s, step) && !step.Crash? && Carries(s, id, lease, grant)
    ensures Carries(Next(s, step), id, lease, grant)
  {
    if !IsPost(step, id) {
      PostFrame(s, step, id);
    }
  }

  /** While it has not given up, its lease is current. */
  predicate Ongoing(s: Sys, id: nat, lease: Revision, grant: Grant) {
    Carries(s, id, lease, grant) && (s.posts[id].Holding() ==> s.slot.Current(lease))
  }

  /** A step of another POST leaves a lease alone that is not its own. */
  lemma LeaseOnPosts(s: Sys, step: Step, id: nat)
    requires Inv(s) && Enabled(s, step) && !Reserves(s, step) && !IsPost(step, id)
    requires step.PostStart? || step.PostActivates? || step.PostStages? || step.PostResumes? || step.PostDetaches?
    requires id in s.posts && s.posts[id].Holding() && s.slot.Current(s.posts[id].lease)
    ensures Next(s, step).slot.Current(s.posts[id].lease)
  {
    assert PostInv(s.slot, s.lane, s.posts[id]);
    if step.PostActivates? || step.PostStages? || step.PostResumes? {
      assert s.posts[step.id].Holding() && s.posts[step.id].lease != s.posts[id].lease;
    }
  }

  lemma LeaseOnStep(s: Sys, step: Step, id: nat)
    requires Inv(s) && Enabled(s, step) && !Supersedes(s, step) && !step.Crash? && !IsPost(step, id)
    requires id in s.posts && s.posts[id].Holding() && s.slot.Current(s.posts[id].lease)
    ensures Next(s, step).slot.Current(s.posts[id].lease)
  {
    assert PostInv(s.slot, s.lane, s.posts[id]);
    if IsReload(step) {
      LocalStateWins(s, step);
    } else if IsHandler(step) && !step.DeleteAnswers? {
      LeaseOnPosts(s, step, id);
    }
  }

  lemma ActivationGoesOn(s: Sys, id: nat, outcome: Outcome)
    requires id in s.posts && s.posts[id].Activation?
    ensures ActivatePost(s, id, outcome).posts[id].Holding() ==> ActivatePost(s, id, outcome).slot == s.slot
  {
  }

  lemma StagingGoesOn(s: Sys, id: nat)
    requires id in s.posts && s.posts[id].Activated?
    ensures StagePost(s, id).slot.access == s.slot.access
  {
  }

  /** Its own steps pass the lease on or give it up. */
  lemma OwnStepGoesOn(s: Sys, step: Step, id: nat, lease: Revision, grant: Grant)
    requires Enabled(s, step) && Ongoing(s, id, lease, grant) && IsPost(step, id)
    ensures Next(s, step).posts[id].Holding() ==> Next(s, step).slot.Current(lease)
  {
    match step
    case PostActivates(_, outcome) => ActivationGoesOn(s, id, outcome);
    case PostStages(_) => StagingGoesOn(s, id);
    case PostResumes(_) => assert !ResumePost(s, id).posts[id].Holding();
    case _ =>
  }

  lemma OngoingOnStep(s: Sys, step: Step, id: nat, lease: Revision, grant: Grant)
    requires Inv(s) && Enabled(s, step) && !Supersedes(s, step) && !step.Crash? && Ongoing(s, id, lease, grant)
    ensures Ongoing(Next(s, step), id, lease, grant)
  {
    CarriesOnStep(s, step, id, lease, grant);
    if IsPost(step, id) {
      OwnStepGoesOn(s, step, id, lease, grant);
    } else {
      PostFrame(s, step, id);
      if s.posts[id].Holding() {
        LeaseOnStep(s, step, id);
      }
    }
  }

  /** POST `id` reserves the entity at step `h` and its write has answered true at `i`, in the same process. */
  predicate WriteSucceeds(states: seq<Sys>, steps: seq<Step>, id: nat, h: nat, i: nat) {
    && h < i < |steps| && |states| == |steps| + 1
    && steps[h].PostStart? && steps[h].id == id && Reserves(states[h], steps[h])
    && steps[i] == PostResumes(id) && Enabled(states[i], steps[i])
    && states[i].lane.Answer(states[i].posts[id].ticket) == Some(true)
    && forall k {:trigger steps[k]} | h < k < i :: !steps[k].Crash?
  }

  lemma ReservedNow(s: Sys, step: Step)
    requires Enabled(s, step) && Reserves(s, step)
    ensures var t, lease := Next(s, step), s.slot.Snap().Fresh();
      t.slot.Covers(lease) && t.slot.instance == s.slot.instance && Ongoing(t, step.id, lease, step.grant)
  {
    Reserved(s, step.id, step.expected, step.grant);
  }

  lemma {:induction false} CarriesOn(states: seq<Sys>, steps: seq<Step>, id: nat, h: nat, i: nat)
    requires Execution(states, steps) && h < i < |states|
    requires steps[h].PostStart? && steps[h].id == id && Reserves(states[h], steps[h])
    requires forall k {:trigger steps[k]} | h < k < i :: !steps[k].Crash?
    ensures Carries(states[i], id, states[h].slot.Snap().Fresh(), steps[h].grant)
    decreases i
  {
    if i == h + 1 {
      ReservedNow(states[h], steps[h]);
    } else {
      CarriesOn(states, steps, id, h, i - 1);
      CarriesOnStep(states[i - 1], steps[i - 1], id, states[h].slot.Snap().Fresh(), steps[h].grant);
    }
  }

  lemma {:induction false} PostGoesOn(states: seq<Sys>, steps: seq<Step>, id: nat, h: nat, i: nat)
    requires Execution(states, steps) && h < i < |states|
    requires steps[h].PostStart? && steps[h].id == id && Reserves(states[h], steps[h])
    requires forall k {:trigger steps[k]} | h < k < i :: !Supersedes(states[k], steps[k]) && !steps[k].Crash?
    ensures Ongoing(states[i], id, states[h].slot.Snap().Fresh(), steps[h].grant)
    decreases i
  {
    if i == h + 1 {
      ReservedNow(states[h], steps[h]);
    } else {
      PostGoesOn(states, steps, id, h, i - 1);
      RunInv(states, steps, i - 1);
      OngoingOnStep(states[i - 1], steps[i - 1], id, states[h].slot.Snap().Fresh(), steps[h].grant);
    }
  }

  lemma CoveredOnStep(s: Sys, step: Step, lease: Revision)
    requires Enabled(s, step) && !step.Crash? && s.slot.Covers(lease)
    ensures Next(s, step).slot.Covers(lease) && Next(s, step).slot.instance == s.slot.instance
    ensures !s.slot.Current(lease) ==> !Next(s, step).slot.Current(lease)
  {
    StepsPerform(s, step);
    CoversForever(s.slot, OperationsOf(s, step), lease);
    InstanceStays(s.slot, OperationsOf(s, step));
  }

  lemma {:induction false} InstanceStays(slot: Slot<Grant>, ops: seq<Operation<Grant>>)
    ensures PerformAll(slot, ops).instance == slot.instance
    decreases |ops|
  {
    if ops != [] {
      InstanceStays(Perform(slot, ops[0]), ops[1..]);
    }
  }

  /** A lease that was reserved stays behind the counter of its process. */
  lemma {:induction false} ReservedIsCovered(states: seq<Sys>, steps: seq<Step>, h: nat, i: nat)
    requires Execution(states, steps) && h < i < |states| && Reserves(states[h], steps[h])
    requires forall k {:trigger steps[k]} | h < k < i :: !steps[k].Crash?
    ensures states[i].slot.Covers(states[h].slot.Snap().Fresh())
    ensures states[i].slot.instance == states[h].slot.instance
    decreases i
  {
    if i == h + 1 {
      ReservedNow(states[h], steps[h]);
    } else {
      ReservedIsCovered(states, steps, h, i - 1);
      CoveredOnStep(states[i - 1], steps[i - 1], states[h].slot.Snap().Fresh());
    }
  }

  /** Whoever takes the entity over draws a revision of its own. */
  lemma SupersededIsStale(s: Sys, step: Step, lease: Revision)
    requires Enabled(s, step) && Supersedes(s, step) && s.slot.Covers(lease) && lease.instance == s.slot.instance
    ensures !Next(s, step).slot.Current(lease) && Next(s, step).slot.Covers(lease)
  {
  }

  lemma SupersededStaysStale(states: seq<Sys>, steps: seq<Step>, h: nat, k: nat, i: nat)
    requires Execution(states, steps) && h < k < i < |states| && Reserves(states[h], steps[h]) && Supersedes(states[k], steps[k])
    requires forall m {:trigger steps[m]} | h < m < i :: !steps[m].Crash?
    ensures !states[i].slot.Current(states[h].slot.Snap().Fresh())
  {
    var lease := states[h].slot.Snap().Fresh();
    ReservedIsCovered(states, steps, h, k);
    assert Enabled(states[k], steps[k]) && states[k + 1] == Next(states[k], steps[k]);
    SupersededIsStale(states[k], steps[k], lease);
    LeaseStaysDead(states, steps, k + 1, i, lease);
  }

  /**
    Main result on POST, the half that says it does something. A POST that has reserved the entity and
    whose write answers true is answered 200, under the revision it reserved, exactly when no other
    ceremony and no Disconnect came between, and 409 otherwise: nothing that a reload, a retry, a
    reader, another POST's failure or another entity does in the meantime can make it fail.
   */
  lemma PostConfirmsIff(states: seq<Sys>, steps: seq<Step>, id: nat, h: nat, i: nat)
    requires Execution(states, steps) && WriteSucceeds(states, steps, id, h, i)
    ensures Confirms(states, steps, i, states[h].slot.Snap().Fresh(), steps[h].grant) <==>
              forall k {:trigger steps[k]} | h < k < i :: !Supersedes(states[k], steps[k])
    ensures !Confirms(states, steps, i, states[h].slot.Snap().Fresh(), steps[h].grant) ==>
              id in states[i + 1].posts && states[i + 1].posts[id] == PostAnswered(Stale)
  {
    var lease := states[h].slot.Snap().Fresh();
    CarriesOn(states, steps, id, h, i);
    AnswerIsDecided(states, steps, id, i, lease, steps[h].grant);
    if forall k {:trigger steps[k]} | h < k < i :: !Supersedes(states[k], steps[k]) {
      PostGoesOn(states, steps, id, h, i);
    } else {
      var k :| h < k < i && Supersedes(states[k], steps[k]);
      SupersededStaysStale(states, steps, h, k, i);
    }
  }

  /** What the POST answers is decided by whether its lease is current. */
  lemma AnswerIsDecided(states: seq<Sys>, steps: seq<Step>, id: nat, i: nat, lease: Revision, grant: Grant)
    requires Execution(states, steps) && i < |steps| && steps[i] == PostResumes(id)
    requires Carries(states[i], id, lease, grant) && Enabled(states[i], steps[i])
    requires states[i].lane.Answer(states[i].posts[id].ticket) == Some(true)
    ensures Confirms(states, steps, i, lease, grant) <==> states[i].slot.Current(lease)
    ensures !states[i].slot.Current(lease) ==> id in states[i + 1].posts && states[i + 1].posts[id] == PostAnswered(Stale)
  {
    RunInv(states, steps, i);
    assert states[i + 1] == Next(states[i], steps[i]);
    ConfirmedIff(states[i], steps[i], id, lease, grant);
    StaleIff(states[i], steps[i], id);
  }

  // ── A POST can always be confirmed ─────────────────────────────────────────

  /** Every write waits for an earlier one. */
  ghost predicate Chained(lane: Lane<Held>) {
    forall t | 0 <= t < |lane.runs| && lane.runs[t].after.Some? :: lane.runs[t].after.value < t
  }

  lemma SyncChains(l: Lane<Held>)
    requires l.Ordered() && Chained(l)
    ensures Chained(l.Sync().0)
  {
  }

  lemma WritesChain(s: Sys, step: Step)
    requires Inv(s) && Chained(s.lane) && Enabled(s, step) && IsWrite(step)
    ensures Chained(Next(s, step).lane)
  {
    if step.RetryFires? {
      var freed := FireFrees(s.lane, step.timer);
      SyncChains(freed);
    }
  }

  lemma ChainOnStep(s: Sys, step: Step)
    requires Inv(s) && Chained(s.lane) && Enabled(s, step)
    ensures Chained(Next(s, step).lane)
  {
    if IsWrite(step) {
      WritesChain(s, step);
    } else if !step.Crash? {
      OthersOnlySync(s, step);
      SyncChains(s.lane);
    }
  }

  lemma {:induction false} RunChains(states: seq<Sys>, steps: seq<Step>, i: nat)
    requires Execution(states, steps) && i < |states|
    ensures Chained(states[i].lane)
  {
    if i > 0 {
      RunChains(states, steps, i - 1);
      RunInv(states, steps, i - 1);
      ChainOnStep(states[i - 1], steps[i - 1]);
    }
  }

  function Left(phase: DelegationStores.Phase<Held>): nat {
    match phase
    case Waiting => 4
    case Writing(_, landed) => if landed then 2 else 3
    case Settling(_) => 1
    case Over(_) => 0
  }

  /** What the writes of the lane have left to do; only the last two can have anything. */
  function Work(lane: Lane<Held>): nat {
    var n := |lane.runs|;
    (if n > 0 then Left(lane.runs[n - 1].phase) else 0) + (if n > 1 then Left(lane.runs[n - 2].phase) else 0)
  }

  /** A write of the lane that can go on, and how, when the space accepts it. */
  function Advance(s: Sys, t: nat): Step
    requires t < |s.lane.runs|
  {
    match s.lane.runs[t].phase
    case Waiting => WriteBegins(t)
    case Writing(want, landed) => if want.Keep? || landed then WriteFinishes(t, true) else WriteLands(t)
    case Settling(_) => QueueCleans(t)
    case Over(_) => Touch
  }

  lemma AdvanceIsEnabled(s: Sys, t: nat)
    requires t < |s.lane.runs| && !s.lane.runs[t].phase.Over?
    requires s.lane.runs[t].phase.Waiting? ==> s.lane.CanBegin(t)
    ensures IsWrite(Advance(s, t)) && Enabled(s, Advance(s, t))
    ensures Next(s, Advance(s, t)) == s.(lane := Next(s, Advance(s, t)).lane)
  {
  }

  /** Only write `t` has changed, and it has less left to do. */
  ghost predicate Moves(l: Lane<Held>, after: Lane<Held>, t: nat) {
    && t < |l.runs| == |after.runs| && Left(after.runs[t].phase) < Left(l.runs[t].phase)
    && forall u | 0 <= u < |l.runs| && u != t :: after.runs[u] == l.runs[u]
  }

  lemma BeginMoves(l: Lane<Held>, t: nat, want: Want<Held>)
    requires l.CanBegin(t)
    ensures Moves(l, l.Begin(t, want), t)
  {
  }

  lemma WritingMoves(l: Lane<Held>, t: nat)
    requires t < |l.runs| && l.runs[t].phase.Writing?
    ensures l.CanFinish(t, true) ==> Moves(l, l.Finish(t, true), t)
    ensures l.CanLand(t) && !l.runs[t].phase.landed ==> Moves(l, l.Land(t), t)
  {
  }

  lemma CleanMoves(l: Lane<Held>, t: nat)
    requires l.CanClean(t)
    ensures Moves(l, l.Clean(t), t)
  {
  }

  lemma AdvanceWorks(s: Sys, t: nat)
    requires t < |s.lane.runs| && !s.lane.runs[t].phase.Over? && Enabled(s, Advance(s, t))
    ensures Moves(s.lane, Next(s, Advance(s, t)).lane, t)
  {
    match s.lane.runs[t].phase
    case Waiting => BeginMoves(s.lane, t, Desired(s.slot));
    case Writing(_, _) => WritingMoves(s.lane, t);
    case Settling(_) => CleanMoves(s.lane, t);
  }

  /** Writes do not wait for each other in a circle: as long as one is unfinished, one can go on. */
  lemma SomeWriteGoesOn(s: Sys) returns (t: nat)
    requires s.lane.Ordered() && Chained(s.lane) && Work(s.lane) > 0
    ensures t < |s.lane.runs| && IsWrite(Advance(s, t)) && Enabled(s, Advance(s, t))
    ensures Next(s, Advance(s, t)) == s.(lane := Next(s, Advance(s, t)).lane)
    ensures Work(Next(s, Advance(s, t)).lane) < Work(s.lane)
  {
    var n := |s.lane.runs|;
    t := if n > 1 && !s.lane.runs[n - 2].phase.Over? then n - 2 else n - 1;
    AdvanceIsEnabled(s, t);
    AdvanceWorks(s, t);
  }

  lemma Extend(states: seq<Sys>, steps: seq<Step>, step: Step) returns (more: seq<Sys>, run: seq<Step>)
    requires Execution(states, steps) && Enabled(states[|steps|], step)
    ensures Execution(more, run) && run == steps + [step] && more == states + [Next(states[|steps|], step)]
    ensures Inv(more[|run|]) && Chained(more[|run|].lane)
  {
    run, more := steps + [step], states + [Next(states[|steps|], step)];
    forall i {:trigger run[i]} | 0 <= i < |run| ensures Enabled(more[i], run[i]) && more[i + 1] == Next(more[i], run[i]) {
      if i < |steps| {
        assert run[i] == steps[i];
      }
    }
    RunInv(more, run, |run|);
    RunChains(more, run, |run|);
  }

  /** Writes that the space accepts bring the lane to rest, and touch nothing else. */
  lemma {:induction false} Drain(states: seq<Sys>, steps: seq<Step>) returns (more: seq<Sys>, run: seq<Step>)
    requires Execution(states, steps)
    ensures Execution(more, run) && steps <= run && states <= more
    ensures Work(more[|run|].lane) == 0 && more[|run|] == states[|steps|].(lane := more[|run|].lane)
    decreases Work(states[|steps|].lane)
  {
    if Work(states[|steps|].lane) == 0 {
      more, run := states, steps;
    } else {
      RunInv(states, steps, |steps|);
      RunChains(states, steps, |steps|);
      var t := SomeWriteGoesOn(states[|steps|]);
      var states', steps' := Extend(states, steps, Advance(states[|steps|], t));
      more, run := Drain(states', steps');
    }
  }

  /** A write that puts something, from its start to its answer. */
  lemma PutSucceeds(l: Lane<Held>, t: nat, held: Held)
    requires l.CanBegin(t)
    ensures var begun := l.Begin(t, Put(held)); begun.CanLand(t) && begun.Land(t).CanFinish(t, true)
    ensures l.Begin(t, Put(held)).Land(t).Finish(t, true).Answer(t) == Some(true)
  {
  }

  /** On a lane at rest the write of a staged POST can begin at once. */
  lemma StagedCanBegin(s: Sys, id: nat)
    requires Inv(s) && Enabled(s, PostStages(id)) && s.slot.Current(s.posts[id].lease) && Work(s.lane) == 0
    ensures StagePost(s, id).lane.CanBegin(s.lane.Sync().1)
  {
    assert PostInv(s.slot, s.lane, s.posts[id]);
    SyncFrame(s.lane);
  }

  lemma Reserve(states: seq<Sys>, steps: seq<Step>, id: nat, grant: Grant) returns (more: seq<Sys>, run: seq<Step>)
    requires Execution(states, steps) && id !in states[|steps|].posts && grant.transcripts.Some?
    ensures Execution(more, run) && run == steps + [PostStart(id, states[|steps|].slot.Snap().access.value.revision, grant), PostActivates(id, Succeeds)]
    ensures states <= more
    ensures var s, t, lease := states[|steps|], more[|run|], states[|steps|].slot.Snap().Fresh();
      Inv(t) && t.posts == s.posts[id := Activated(lease, grant)] && t.slot.Current(lease) && t.lane == s.lane
  {
    var s := states[|steps|];
    var expected := s.slot.Snap().access.value.revision;
    Reserved(s, id, expected, grant);
    var states', steps' := Extend(states, steps, PostStart(id, expected, grant));
    more, run := Extend(states', steps', PostActivates(id, Succeeds));
  }

  /** A staged POST waits for a write that can begin. */
  lemma Stage(states: seq<Sys>, steps: seq<Step>, id: nat) returns (more: seq<Sys>, run: seq<Step>, ticket: nat)
    requires Execution(states, steps) && Enabled(states[|steps|], PostStages(id))
    requires states[|steps|].slot.Current(states[|steps|].posts[id].lease) && Work(states[|steps|].lane) == 0
    ensures Execution(more, run) && run == steps + [PostStages(id)] && states <= more
    ensures var s, t := states[|steps|], more[|run|]; var p := s.posts[id];
      && t.posts == s.posts[id := Syncing(p.lease, p.grant, ticket)] && t.slot.Current(p.lease)
      && Desired(t.slot) == Put(ActiveHeld(p.lease, p.grant)) && t.lane.CanBegin(ticket)
  {
    var s := states[|steps|];
    RunInv(states, steps, |steps|);
    StagedWaits(s, id);
    StagedCanBegin(s, id);
    StagingGoesOn(s, id);
    ticket := s.lane.Sync().1;
    more, run := Extend(states, steps, PostStages(id));
  }

  lemma PutBegins(s: Sys, t: nat, held: Held)
    requires s.lane.CanBegin(t) && Desired(s.slot) == Put(held)
    ensures Enabled(s, WriteBegins(t)) && Next(s, WriteBegins(t)) == s.(lane := s.lane.Begin(t, Put(held)))
  {
  }

  lemma PutLands(s: Sys, t: nat)
    requires s.lane.CanLand(t)
    ensures Enabled(s, WriteLands(t)) && Next(s, WriteLands(t)) == s.(lane := s.lane.Land(t))
  {
  }

  lemma PutFinishes(s: Sys, t: nat)
    requires s.lane.CanFinish(t, true)
    ensures Enabled(s, WriteFinishes(t, true)) && Next(s, WriteFinishes(t, true)) == s.(lane := s.lane.Finish(t, true))
  {
  }

  /** The write of a staged POST runs and answers. */
  lemma Publish(states: seq<Sys>, steps: seq<Step>, ticket: nat, held: Held) returns (more: seq<Sys>, run: seq<Step>)
    requires Execution(states, steps) && states[|steps|].lane.CanBegin(ticket) && Desired(states[|steps|].slot) == Put(held)
    ensures Execution(more, run) && run == steps + [WriteBegins(ticket)] + [WriteLands(ticket)] + [WriteFinishes(ticket, true)] && states <= more
    ensures more[|run|] == states[|steps|].(lane := more[|run|].lane) && more[|run|].lane.Answer(ticket) == Some(true)
  {
    PutSucceeds(states[|steps|].lane, ticket, held);
    PutBegins(states[|steps|], ticket, held);
    var states1, steps1 := Extend(states, steps, WriteBegins(ticket));
    PutLands(states1[|steps1|], ticket);
    var states2, steps2 := Extend(states1, steps1, WriteLands(ticket));
    PutFinishes(states2[|steps2|], ticket);
    more, run := Extend(states2, steps2, WriteFinishes(ticket, true));
  }

  /** From its activation on, on a lane at rest, a POST whose lease is current goes all the way to its 200. */
  lemma Finish(states: seq<Sys>, steps: seq<Step>, id: nat, revision: Revision, grant: Grant) returns (more: seq<Sys>, run: seq<Step>)
    requires Execution(states, steps) && id in states[|steps|].posts && states[|steps|].posts[id] == Activated(revision, grant)
    requires states[|steps|].slot.Current(revision) && Work(states[|steps|].lane) == 0
    ensures Execution(more, run) && steps < run && states < more
    ensures Confirms(more, run, |run| - 1, revision, grant) && run[|run| - 1] == PostResumes(id)
  {
    var states1, steps1, ticket := Stage(states, steps, id);
    var states2, steps2 := Publish(states1, steps1, ticket, ActiveHeld(revision, grant));
    RunInv(states2, steps2, |steps2|);
    assert Enabled(states2[|steps2|], PostResumes(id));
    ResumedIff(states2[|steps2|], id, revision, grant);
    more, run := Extend(states2, steps2, PostResumes(id));
  }

  /**
    No state of the process is a dead end for the ceremony. From every reachable state, whatever POSTs,
    DELETEs, reloads, failed writes and retries came before, a POST that names the present revision
    can be carried to its 200: the writes before its own can be finished, and it then needs nothing
    but its own activation and its own write to succeed.
   */
  lemma PostCanConfirm(states: seq<Sys>, steps: seq<Step>, id: nat, grant: Grant)
      returns (more: seq<Sys>, run: seq<Step>, revision: Revision)
    requires Execution(states, steps) && id !in states[|steps|].posts && grant.transcripts.Some?
    ensures Execution(more, run) && steps < run && states < more
    ensures Confirms(more, run, |run| - 1, revision, grant)
    ensures run[|run| - 1] == PostResumes(id)
    ensures PostStart(id, states[|steps|].slot.Snap().access.value.revision, grant) in run
  {
    var states1, steps1 := Drain(states, steps);
    var states2, steps2 := Reserve(states1, steps1, id, grant);
    revision := states1[|steps1|].slot.Snap().Fresh();
    more, run := Finish(states2, steps2, id, revision, grant);
    assert steps2[|steps1|] == PostStart(id, states[|steps|].slot.Snap().access.value.revision, grant);
    assert run[|steps1|] == steps2[|steps1|];
  }
}
