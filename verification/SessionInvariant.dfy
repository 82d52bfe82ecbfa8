/**
  The inductive invariant of the session protocol: how the access state, the write queue, the stored
  record and every handler's program counter hang together between any two steps.
 */
module SessionInvariant {
  import opened Options
  import opened SessionStores
  import opened DelegationStores
  import opened SessionProtocol

  /** The revision was issued by an earlier process, or by this one before the counter's next value. */
  predicate Past(slot: Slot<Grant>, revision: Revision) {
    revision.instance < slot.instance || (revision.instance == slot.instance && revision.number <= slot.sequence)
  }

  predicate Foreign(slot: Slot<Grant>, held: Option<Held>) {
    held.Some? && !held.value.Unreadable? ==> held.value.revision.instance < slot.instance
  }

  /** Every write in flight carries `want`, or nothing. */
  ghost predicate OnlyWrites(lane: Lane<Held>, want: Want<Held>) {
    forall t | 0 <= t < |lane.runs| && lane.runs[t].phase.Writing? ::
      lane.runs[t].phase.want == want || lane.runs[t].phase.want.Keep?
  }

  /** No write was ever asked of this process. */
  predicate Untouched(lane: Lane<Held>) { lane.runs == [] && lane.timers.armed == map[] }

  /**
    What the ticket of a POST's sync promises while its lease is current: not read yet, or reading and
    writing the staged record, or resolved; if resolved true, the record is stored.
   */
  ghost predicate Serves(lane: Lane<Held>, ticket: nat, held: Held) {
    && ticket < |lane.runs|
    && match lane.runs[ticket].phase
       case Waiting => true
       case Writing(want, _) => want == Put(held)
       case Settling(ok) => ok ==> lane.stored == Some(held) && OnlyWrites(lane, Put(held))
       case Over(ok) => ok ==> lane.stored == Some(held) && OnlyWrites(lane, Put(held))
  }

  ghost predicate SlotInv(slot: Slot<Grant>) {
    && (slot.Known() ==> Past(slot, slot.access.value.revision))
    && (slot.persisting.Some? ==>
          slot.In(Activating) && slot.Current(slot.persisting.value.revision) && slot.persisting.value.record.transcripts.Some?)
  }

  /** Until the entity is touched by a handler, the stored record is what the last process left. */
  ghost predicate StoredInv(slot: Slot<Grant>, lane: Lane<Held>) {
    && lane.Ordered()
    && (lane.runs == [] ==> Foreign(slot, lane.stored))
    && (!slot.Known() ==> Untouched(lane))
    && (slot.In(Restoring) ==>
          && Untouched(lane)
          && lane.stored.Some? && lane.stored.value.ActiveHeld? && slot.Current(lane.stored.value.revision))
    && (slot.In(Active) ==>
          && slot.access.value.record.Some? && slot.access.value.record.value.transcripts.Some?
          && var held := ActiveHeld(slot.access.value.revision, slot.access.value.record.value);
             lane.stored == Some(held) && OnlyWrites(lane, Put(held)))
  }

  ghost predicate PostInv(slot: Slot<Grant>, lane: Lane<Held>, p: Post) {
    p.Holding() ==>
      && p.grant.transcripts.Some?
      && slot.Known() && p.lease.instance == slot.instance && p.lease.number <= slot.sequence
      && (slot.Current(p.lease) ==>
            && slot.In(Activating)
            && (p.Syncing? ==>
                  && slot.persisting == Some(Staged(p.lease, p.grant))
                  && Serves(lane, p.ticket, ActiveHeld(p.lease, p.grant))))
  }

  ghost predicate PostsInv(s: Sys) {
    && (forall id | id in s.posts :: PostInv(s.slot, s.lane, s.posts[id]))
    && (forall a, b | a in s.posts && b in s.posts && a != b && s.posts[a].Holding() && s.posts[b].Holding() ::
          s.posts[a].lease != s.posts[b].lease)
  }

  /** A lease of the reload: of an older process, and current only while restoring. */
  predicate OldLease(slot: Slot<Grant>, lease: Revision) {
    && lease.instance < slot.instance
    && slot.Known()
    && (slot.Current(lease) ==> slot.In(Restoring))
  }

  /** A reload in progress holds this lease. */
  predicate RunsUnder(reload: Reload, lease: Revision) {
    match reload
    case Idle => true
    case Fetching(held) => held == Some(lease)
    case Fetched(held, _) => held == Some(lease)
    case Reactivating(own, _) => own == lease
    case Failing(own, _, _) => own == lease
  }

  /** The record a reload read is still the stored one while the reload can still use it. */
  ghost predicate ReloadInv(s: Sys) {
    && (s.slot.In(Restoring) ==> s.pending && s.lease == Some(s.slot.access.value.revision))
    && (s.lease.Some? ==> OldLease(s.slot, s.lease.value))
    && (s.phase.Booting? ==> !s.pending && s.reload.Idle? && s.lease.None?)
    && (!s.slot.Known() && !s.reload.Idle? ==> s.pending)
    && (s.slot.In(Restoring) ==> RunsUnder(s.reload, s.slot.access.value.revision))
    && match s.reload
       case Idle => true
       case Fetching(lease) => lease.Some? ==> OldLease(s.slot, lease.value)
       case Fetched(lease, value) =>
         && (lease.Some? ==> OldLease(s.slot, lease.value))
         && ((if lease.Some? then s.slot.Current(lease.value) else !s.slot.Known()) ==> value == s.lane.stored)
         && (value.Some? && value.value.ActiveHeld? ==> value.value.grant.transcripts.Some?)
       case Reactivating(own, grant) =>
         OldLease(s.slot, own) && grant.transcripts.Some?
         && (s.slot.Current(own) ==> s.lane.stored == Some(ActiveHeld(own, grant)))
       case Failing(own, grant, _) =>
         OldLease(s.slot, own) && grant.transcripts.Some?
         && (s.slot.Current(own) ==> s.lane.stored == Some(ActiveHeld(own, grant)))
  }

  /** The parser accepts an active record only with both delegations. */
  predicate Readable(held: Option<Held>) {
    held.Some? && held.value.ActiveHeld? ==> held.value.grant.transcripts.Some?
  }

  predicate Sound(slot: Slot<Grant>, held: Option<Held>) {
    && Readable(held)
    && (held.Some? && !held.value.Unreadable? ==> Past(slot, held.value.revision))
  }

  ghost predicate WantsInv(slot: Slot<Grant>, lane: Lane<Held>) {
    && Sound(slot, lane.stored)
    && forall t | 0 <= t < |lane.runs| && lane.runs[t].phase.Writing? && lane.runs[t].phase.want.Put? ::
         Sound(slot, Some(lane.runs[t].phase.want.value))
  }

  ghost predicate Inv(s: Sys) {
    && SlotInv(s.slot) && StoredInv(s.slot, s.lane) && WantsInv(s.slot, s.lane) && PostsInv(s) && ReloadInv(s)
    && (forall id | id in s.posts :: s.posts[id].Syncing? ==> s.posts[id].ticket < |s.lane.runs|)
    && (forall id | id in s.removals && s.removals[id].Removing? :: s.removals[id].ticket < |s.lane.runs|)
  }

  // ── Lane steps ─────────────────────────────────────────────────────────────

  /** sync() adds at most one waiting write and touches nothing else that the invariant reads. */
  lemma SyncFrame(l: Lane<Held>)
    requires l.Ordered()
    ensures var (after, ticket) := l.Sync();
      && after.Ordered() && after.stored == l.stored && after.stopped == l.stopped
      && |l.runs| <= |after.runs| <= |l.runs| + 1
      && (forall t | 0 <= t < |l.runs| :: after.runs[t] == l.runs[t])
      && (forall t | |l.runs| <= t < |after.runs| :: after.runs[t].phase.Waiting?)
      && ticket < |after.runs| && after.runs[ticket].phase.Waiting?
  {
    SyncKeepsOrder(l);
  }

  lemma SyncKeeps(slot: Slot<Grant>, l: Lane<Held>)
    requires l.Ordered() && WantsInv(slot, l)
    ensures WantsInv(slot, l.Sync().0)
    ensures forall want :: OnlyWrites(l, want) ==> OnlyWrites(l.Sync().0, want)
    ensures forall ticket, held :: Serves(l, ticket, held) ==> Serves(l.Sync().0, ticket, held)
  {
    SyncFrame(l);
  }

  lemma BeginKeepsWants(s: Sys, t: nat)
    requires Inv(s) && s.lane.CanBegin(t)
    ensures var after := s.lane.Begin(t, Desired(s.slot)); after.Ordered() && WantsInv(s.slot, after) && StoredInv(s.slot, after)
  {
    BeginKeepsOrder(s.lane, t, Desired(s.slot));
  }

  lemma BeginKeepsInv(s: Sys, t: nat)
    requires Inv(s) && s.lane.CanBegin(t)
    ensures Inv(Next(s, WriteBegins(t)))
  {
    BeginKeepsWants(s, t);
  }

  lemma LandKeepsWants(s: Sys, t: nat)
    requires Inv(s) && s.lane.CanLand(t)
    ensures var after := s.lane.Land(t); after.Ordered() && WantsInv(s.slot, after) && StoredInv(s.slot, after)
  {
    LandKeepsOrder(s.lane, t);
  }

  lemma LandKeepsPromises(l: Lane<Held>, t: nat)
    requires l.Ordered() && l.CanLand(t)
    ensures forall want :: OnlyWrites(l, want) ==> OnlyWrites(l.Land(t), want)
    ensures forall ticket, held :: Serves(l, ticket, held) ==> Serves(l.Land(t), ticket, held)
  {
    var after := l.Land(t);
    assert forall u | 0 <= u < |l.runs| :: after.runs[u] == if u == t then l.runs[t].(phase := Writing(l.runs[t].phase.want, true)) else l.runs[u];
  }

  lemma LandKeepsInv(s: Sys, t: nat)
    requires Inv(s) && s.lane.CanLand(t)
    ensures Inv(Next(s, WriteLands(t)))
  {
    LandKeepsWants(s, t);
    LandKeepsPromises(s.lane, t);
  }

  /** A lane step that stores nothing keeps the invariant if it keeps what writes and tickets promise. */
  lemma LaneStepKeepsInv(s: Sys, after: Lane<Held>)
    requires Inv(s) && s.slot.Known() && !s.slot.In(Restoring)
    requires after.Ordered() && WantsInv(s.slot, after) && after.stored == s.lane.stored && |s.lane.runs| <= |after.runs|
    requires forall want :: OnlyWrites(s.lane, want) ==> OnlyWrites(after, want)
    requires forall ticket, held :: Serves(s.lane, ticket, held) ==> Serves(after, ticket, held)
    ensures Inv(s.(lane := after))
  {
  }

  lemma FinishKeepsPromises(l: Lane<Held>, t: nat, ok: bool)
    requires l.Ordered() && l.CanFinish(t, ok)
    ensures forall want :: OnlyWrites(l, want) ==> OnlyWrites(l.Finish(t, ok), want)
    ensures forall ticket, held :: Serves(l, ticket, held) ==> Serves(l.Finish(t, ok), ticket, held)
  {
    var after := l.Finish(t, ok);
    assert forall u | 0 <= u < |l.runs| :: after.runs[u] == if u == t then l.runs[t].(phase := Settling(ok)) else l.runs[u];
  }

  lemma FinishKeepsInv(s: Sys, t: nat, ok: bool)
    requires Inv(s) && s.lane.CanFinish(t, ok)
    ensures Inv(Next(s, WriteFinishes(t, ok)))
  {
    FinishKeepsOrder(s.lane, t, ok);
    FinishKeepsPromises(s.lane, t, ok);
    LaneStepKeepsInv(s, s.lane.Finish(t, ok));
  }

  lemma CleanKeepsPromises(l: Lane<Held>, t: nat)
    requires l.Ordered() && l.CanClean(t)
    ensures forall want :: OnlyWrites(l, want) ==> OnlyWrites(l.Clean(t), want)
    ensures forall ticket, held :: Serves(l, ticket, held) ==> Serves(l.Clean(t), ticket, held)
  {
    var after := l.Clean(t);
    assert forall u | 0 <= u < |l.runs| :: after.runs[u] == if u == t then l.runs[t].(phase := Over(l.runs[t].phase.ok)) else l.runs[u];
  }

  lemma CleanKeepsInv(s: Sys, t: nat)
    requires Inv(s) && s.lane.CanClean(t)
    ensures Inv(Next(s, QueueCleans(t)))
  {
    CleanKeepsOrder(s.lane, t);
    CleanKeepsPromises(s.lane, t);
    LaneStepKeepsInv(s, s.lane.Clean(t));
  }

  /** A timer that fires forgets its handle and then calls sync() on an ordered lane. */
  lemma FireFrees(l: Lane<Held>, timer: nat) returns (freed: Lane<Held>)
    requires l.Ordered() && timer in l.timers.armed
    ensures freed.Ordered() && freed.runs == l.runs && freed.stored == l.stored && freed.stopped == l.stopped
    ensures l.Fire(timer) == freed.Sync().0
  {
    var q := if l.queue.Some? && l.queue.value.id == l.timers.armed[timer] then Some(l.queue.value.(retry := None)) else l.queue;
    freed := l.(timers := l.timers.(armed := l.timers.armed - {timer}), queue := q);
  }

  lemma FireKeepsPromises(slot: Slot<Grant>, l: Lane<Held>, timer: nat)
    requires l.Ordered() && WantsInv(slot, l) && timer in l.timers.armed
    ensures var after := l.Fire(timer);
      && after.Ordered() && WantsInv(slot, after) && after.stored == l.stored && after.stopped == l.stopped
      && |l.runs| <= |after.runs|
      && (forall t | 0 <= t < |l.runs| :: after.runs[t] == l.runs[t])
      && (forall t | |l.runs| <= t < |after.runs| :: after.runs[t].phase.Waiting?)
      && (exists t :: 0 <= t < |after.runs| && after.runs[t].phase.Waiting?)
  {
    var freed := FireFrees(l, timer);
    SyncFrame(freed);
  }

  lemma FireKeepsInv(s: Sys, timer: nat)
    requires Inv(s) && timer in s.lane.timers.armed
    ensures Inv(Next(s, RetryFires(timer)))
  {
    FireKeepsPromises(s.slot, s.lane, timer);
    LaneStepKeepsInv(s, s.lane.Fire(timer));
  }

  /** A lane that no write was ever asked of has no timer to disarm. */
  lemma StopUntouched(s: Sys)
    requires Inv(s) && Untouched(s.lane)
    ensures Inv(s.(lane := s.lane.(stopped := true))) && s.lane.Stop() == s.lane.(stopped := true)
  {
  }

  lemma StopKeepsInv(s: Sys)
    requires Inv(s)
    ensures Inv(Next(s, StoreStops))
  {
    OrderKept(s.lane, Stopped);
    if s.slot.Known() && !s.slot.In(Restoring) {
      LaneStepKeepsInv(s, s.lane.Stop());
    } else {
      StopUntouched(s);
    }
  }

  // ── Handler steps ──────────────────────────────────────────────────────────

  lemma TouchKeepsInv(s: Sys)
    requires Inv(s)
    ensures Inv(s.(slot := s.slot.Snap()))
  {
  }

  lemma ElsewhereKeepsInv(s: Sys)
    requires Inv(s)
    ensures Inv(Next(s, Elsewhere))
  {
  }

  /** Replacing the entry retires every lease, so it discharges what the invariant owed to them. */
  lemma ReplaceKeepsInv(s: Sys, state: AccessState)
    requires Inv(s) && (state.NoAccess? || state.Disconnected? || state.Activating?)
    ensures Inv(Settle(s.(slot := s.slot.Replace(state))))
    ensures Settle(s.(slot := s.slot.Replace(state))).slot == s.slot.Replace(state)
  {
  }

  lemma SyncKeepsInv(s: Sys)
    requires Inv(s) && s.slot.Known() && !s.slot.In(Restoring)
    ensures Inv(s.(lane := s.lane.Sync().0))
    ensures s.lane.Sync().1 < |s.lane.Sync().0.runs|
  {
    SyncFrame(s.lane);
    SyncKeeps(s.slot, s.lane);
    LaneStepKeepsInv(s, s.lane.Sync().0);
  }

  /** Recording an answer, or any other state without a lease, is always allowed. */
  lemma AnswerKeepsInv(s: Sys, id: nat, p: Post)
    requires Inv(s) && !p.Holding()
    ensures Inv(s.(posts := s.posts[id := p]))
  {
  }

  /** A reservation that is granted: whatever was reloading the entity gives way. */
  lemma ReservedKeepsInv(s: Sys, id: nat, grant: Grant)
    requires Inv(s) && id !in s.posts && grant.transcripts.Some? && s.slot.Known()
    ensures Inv(Settle(s.(slot := s.slot.Replace(Activating))).(posts := s.posts[id := Activation(s.slot.Fresh(), grant)]))
  {
    ReplaceKeepsInv(s, Activating);
  }

  lemma StartPostKeepsInv(s: Sys, id: nat, expected: Revision, grant: Grant)
    requires Inv(s) && Enabled(s, PostStart(id, expected, grant))
    ensures Inv(Next(s, PostStart(id, expected, grant)))
  {
    TouchKeepsInv(s);
    var seen := s.(slot := s.slot.Snap());
    if s.slot.Reserve(Some(expected)).1.None? {
      AnswerKeepsInv(seen, id, PostAnswered(Stale));
    } else {
      ReservedKeepsInv(seen, id, grant);
    }
  }

  lemma FailPostKeepsInv(s: Sys, id: nat, lease: Revision)
    requires Inv(s) && id in s.posts && s.posts[id].Holding() && s.posts[id].lease == lease
    ensures Inv(FailPost(s, id, lease))
  {
    if s.slot.Current(lease) {
      assert s.slot.In(Activating);
      ReplaceKeepsInv(s, NoAccess);
      assert !s.slot.In(Restoring);
      var failed := s.(slot := s.slot.Replace(NoAccess));
      assert Inv(failed);
      SyncKeepsInv(failed);
      AnswerKeepsInv(failed.(lane := failed.lane.Sync().0), id, Detaching);
    } else {
      AnswerKeepsInv(s, id, PostAnswered(Stale));
    }
  }

  lemma ActivatePostKeepsInv(s: Sys, id: nat, outcome: Outcome)
    requires Inv(s) && Enabled(s, PostActivates(id, outcome))
    ensures Inv(Next(s, PostActivates(id, outcome)))
  {
    match outcome
    case Succeeds =>
    case Superseded => AnswerKeepsInv(s, id, PostAnswered(Stale));
    case Throws => FailPostKeepsInv(s, id, s.posts[id].lease);
  }

  lemma StagedSlotKeepsInv(s: Sys, id: nat)
    requires Inv(s) && id in s.posts && s.posts[id].Activated? && s.slot.Current(s.posts[id].lease)
    ensures var p := s.posts[id];
      Inv(s.(slot := s.slot.(persisting := Some(Staged(p.lease, p.grant)))))
  {
    var p := s.posts[id];
    var staged := s.(slot := s.slot.(persisting := Some(Staged(p.lease, p.grant))));
    forall other | other in s.posts ensures PostInv(staged.slot, s.lane, s.posts[other]) {
      assert PostInv(s.slot, s.lane, s.posts[other]);
      assert PostInv(s.slot, s.lane, p);
    }
  }

  /** A staged POST that awaits a write which has not begun. */
  lemma AwaitKeepsInv(s: Sys, id: nat, ticket: nat)
    requires Inv(s) && id in s.posts && s.posts[id].Activated?
    requires s.slot.persisting == Some(Staged(s.posts[id].lease, s.posts[id].grant))
    requires ticket < |s.lane.runs| && s.lane.runs[ticket].phase.Waiting?
    ensures Inv(s.(posts := s.posts[id := Syncing(s.posts[id].lease, s.posts[id].grant, ticket)]))
  {
  }

  lemma StagePostKeepsInv(s: Sys, id: nat)
    requires Inv(s) && Enabled(s, PostStages(id))
    ensures Inv(Next(s, PostStages(id)))
  {
    var p := s.posts[id];
    if !s.slot.Current(p.lease) {
      AnswerKeepsInv(s, id, PostAnswered(Stale));
    } else {
      assert s.slot.In(Activating);
      StagedSlotKeepsInv(s, id);
      var staged := s.(slot := s.slot.(persisting := Some(Staged(p.lease, p.grant))));
      SyncKeepsInv(staged);
      SyncFrame(s.lane);
      AwaitKeepsInv(staged.(lane := s.lane.Sync().0), id, s.lane.Sync().1);
    }
  }

  /** The write of a POST that is still current has made its record durable. */
  lemma CommitKeepsInv(s: Sys, id: nat)
    requires Inv(s) && id in s.posts && s.posts[id].Syncing? && s.slot.Current(s.posts[id].lease)
    requires s.lane.Answer(s.posts[id].ticket) == Some(true)
    ensures Inv(ResumePost(s, id))
  {
    var p := s.posts[id];
    assert Serves(s.lane, p.ticket, ActiveHeld(p.lease, p.grant));
  }

  lemma ResumePostKeepsInv(s: Sys, id: nat)
    requires Inv(s) && Enabled(s, PostResumes(id))
    ensures Inv(Next(s, PostResumes(id)))
  {
    var p := s.posts[id];
    if !s.slot.Current(p.lease) {
      AnswerKeepsInv(s, id, PostAnswered(Stale));
    } else if !s.lane.Answer(p.ticket).value {
      FailPostKeepsInv(s, id, p.lease);
    } else {
      CommitKeepsInv(s, id);
    }
  }

  lemma StartDeleteKeepsInv(s: Sys, id: nat)
    requires Inv(s) && Enabled(s, DeleteStart(id))
    ensures Inv(Next(s, DeleteStart(id)))
  {
    ReplaceKeepsInv(s, Disconnected);
    SyncKeepsInv(Settle(s.(slot := s.slot.Disconnect())));
  }

  // ── Reload steps ───────────────────────────────────────────────────────────

  /** Settling drops the lease; if it was still restoring, the entry falls back to "none". */
  lemma DoneKeepsInv(s: Sys)
    requires Inv(s)
    ensures Inv(ReloadDone(s))
  {
  }

  lemma RetryKeepsInv(s: Sys)
    requires Inv(s)
    ensures Inv(ReloadRetries(s))
  {
    DoneKeepsInv(s);
  }

  lemma BeginReloadKeepsInv(s: Sys)
    requires Inv(s) && Enabled(s, ReloadBegins)
    ensures Inv(Next(s, ReloadBegins))
  {
    DoneKeepsInv(s);
  }

  /** A reload whose lease is current, or which may still begin one. */
  predicate Fit(s: Sys) {
    && s.reload.Fetched?
    && (if s.reload.lease.Some? then s.slot.Current(s.reload.lease.value) else !s.slot.Known())
    && s.reload.value.Some? && !s.reload.value.value.Unreadable?
  }

  function Begun(s: Sys): Sys
    requires Fit(s)
  {
    var held := s.reload.value.value;
    if s.reload.lease.Some? then s
    else s.(slot := s.slot.BeginRestore(held.revision).0, lease := Some(held.revision), reload := Fetched(Some(held.revision), s.reload.value))
  }

  lemma BegunFacts(s: Sys)
    requires Inv(s) && Fit(s)
    ensures var b, held := Begun(s), s.reload.value.value;
      && b == s.(slot := b.slot, lease := Some(held.revision), reload := b.reload)
      && b.slot == s.slot.(access := Some(Snapshot(held.revision, Restoring, b.slot.access.value.record, b.slot.access.value.marks)))
      && s.slot.persisting.None? && held.revision.instance < s.slot.instance
      && s.lane.stored == Some(held) && Untouched(s.lane) && s.pending
      && (s.reload.lease.Some? ==> s.reload.lease.value == held.revision)
    ensures forall id | id in s.posts :: !s.posts[id].Holding() || !Begun(s).slot.Current(s.posts[id].lease)
  {
  }

  lemma BegunKeepsInv(s: Sys)
    requires Inv(s) && Fit(s) && s.reload.value.value.ActiveHeld?
    ensures Inv(Begun(s)) && Begun(s).slot.In(Restoring) && Begun(s).lane == s.lane
  {
    BegunFacts(s);
  }

  /** The reload is over and has handed its lease back. */
  function Out(s: Sys, slot: Slot<Grant>): Sys { s.(slot := slot, pending := false, lease := None, reload := Idle) }

  /** Every way out of a restoring entry under the reload's own lease. */
  lemma LeaveAbandoned(s: Sys)
    requires Inv(s) && s.slot.In(Restoring)
    ensures Inv(Out(s, s.slot.AbandonRestore(s.slot.access.value.revision)))
  {
  }

  lemma LeaveBuried(s: Sys, marks: Marks)
    requires Inv(s) && s.slot.In(Restoring)
    ensures Inv(Out(s, s.slot.Tombstone(s.slot.access.value.revision, marks).0))
  {
  }

  lemma LeaveRestored(s: Sys, grant: Grant)
    requires Inv(s) && s.slot.In(Restoring) && grant.transcripts.Some?
    requires s.lane.stored == Some(ActiveHeld(s.slot.access.value.revision, grant))
    ensures Inv(Out(s, s.slot.Restore(s.slot.access.value.revision, grant).0))
  {
  }

  /** A stored tombstone: the entry goes from unknown to revoked, or to "none", in one step. */
  lemma BuryKeepsInv(s: Sys)
    requires Inv(s) && Fit(s) && s.reload.value.value.RevokedHeld?
    ensures var b, held := Begun(s), s.reload.value.value;
      && Inv(Out(b, b.slot.Tombstone(held.revision, held.marks).0))
      && Inv(Out(b, b.slot.AbandonRestore(held.revision)))
      && b.slot.AbandonRestore(held.revision).In(NoAccess)
  {
    BegunFacts(s);
  }

  lemma DecideActive(s: Sys, verdict: Verdict)
    requires Inv(s) && Fit(s) && s.reload.value.value.ActiveHeld? && !verdict.RetentionOver?
    ensures Inv(Decide(s, verdict))
  {
    BegunFacts(s);
    BegunKeepsInv(s);
    LeaveAbandoned(Begun(s));
    LeaveRestored(Begun(s), s.reload.value.value.grant);
  }

  lemma DecideOverdue(s: Sys)
    requires Inv(s) && Fit(s)
    ensures Inv(Decide(s, RetentionOver))
  {
    BegunFacts(s);
    var b, held := Begun(s), s.reload.value.value;
    var t := Out(b, b.slot.AbandonRestore(held.revision));
    if held.ActiveHeld? {
      BegunKeepsInv(s);
      LeaveAbandoned(b);
    } else {
      BuryKeepsInv(s);
    }
    SyncKeepsInv(t);
    assert Decide(s, RetentionOver) == t.(lane := t.lane.Sync().0);
  }

  lemma DecideKeepsInv(s: Sys, verdict: Verdict)
    requires Inv(s) && Enabled(s, ReloadDecides(verdict))
    ensures Inv(Next(s, ReloadDecides(verdict)))
  {
    if !Fit(s) {
      DoneKeepsInv(s);
    } else if verdict.RetentionOver? {
      DecideOverdue(s);
    } else if s.reload.value.value.ActiveHeld? {
      DecideActive(s, verdict);
    } else {
      BegunFacts(s);
      BuryKeepsInv(s);
    }
  }

  lemma ActivateReloadKeepsInv(s: Sys, outcome: Outcome, failure: Failure)
    requires Inv(s) && Enabled(s, ReloadActivates(outcome, failure))
    ensures Inv(Next(s, ReloadActivates(outcome, failure)))
  {
    DoneKeepsInv(s);
  }

  /** A reactivation that the node or the policy refused, under a lease that is still current. */
  lemma RefusalKeepsInv(s: Sys, marks: Marks)
    requires Inv(s) && s.reload.Failing? && s.slot.Current(s.reload.own) && !s.reload.failure.NodeError?
    ensures Inv(DetachReload(s, marks))
  {
    match s.reload.failure
    case NodeRevoked =>
      LeaveBuried(s, marks);
      SyncKeepsInv(Out(s, s.slot.Tombstone(s.reload.own, marks).0));
    case GrantExpired => LeaveRestored(s, s.reload.grant);
    case PolicyRejected => LeaveAbandoned(s);
  }

  lemma DetachReloadKeepsInv(s: Sys, marks: Marks)
    requires Inv(s) && Enabled(s, ReloadDetaches(marks))
    ensures Inv(Next(s, ReloadDetaches(marks)))
  {
    if !s.slot.Current(s.reload.own) {
      DoneKeepsInv(s);
    } else if s.reload.failure.NodeError? {
      RetryKeepsInv(s);
    } else {
      RefusalKeepsInv(s, marks);
    }
  }

  // ── Every step ─────────────────────────────────────────────────────────────

  /** What the space may hold before the first process: anything not bearing a revision of this process. */
  predicate Fair(instance: nat, stored: Option<Held>) {
    && Readable(stored)
    && (stored.Some? && !stored.value.Unreadable? ==> stored.value.revision.instance < instance)
  }

  lemma BootInv(instance: nat, stored: Option<Held>)
    requires Fair(instance, stored)
    ensures Inv(Boot(instance, stored))
  {
  }

  lemma HandlerKeepsInv(s: Sys, step: Step)
    requires Inv(s) && Enabled(s, step) && IsHandler(step)
    ensures Inv(Next(s, step))
  {
    match step
    case PostStart(id, expected, grant) => StartPostKeepsInv(s, id, expected, grant);
    case PostActivates(id, outcome) => ActivatePostKeepsInv(s, id, outcome);
    case PostStages(id) => StagePostKeepsInv(s, id);
    case PostResumes(id) => ResumePostKeepsInv(s, id);
    case PostDetaches(id) => AnswerKeepsInv(s, id, PostAnswered(Unavailable));
    case DeleteStart(id) => StartDeleteKeepsInv(s, id);
    case DeleteAnswers(_, _) =>
  }

  lemma WriteKeepsInv(s: Sys, step: Step)
    requires Inv(s) && Enabled(s, step) && IsWrite(step)
    ensures Inv(Next(s, step))
  {
    match step
    case WriteBegins(t) => BeginKeepsInv(s, t);
    case WriteLands(t) => LandKeepsInv(s, t);
    case WriteFinishes(t, ok) => FinishKeepsInv(s, t, ok);
    case QueueCleans(t) => CleanKeepsInv(s, t);
    case RetryFires(timer) => FireKeepsInv(s, timer);
    case StoreStops => StopKeepsInv(s);
  }

  lemma ReloadKeepsInv(s: Sys, step: Step)
    requires Inv(s) && Enabled(s, step) && IsReload(step)
    ensures Inv(Next(s, step))
  {
    match step
    case ReloadBegins => BeginReloadKeepsInv(s);
    case ReloadReads =>
    case ReloadReadFails => RetryKeepsInv(s);
    case ReloadDecides(verdict) => DecideKeepsInv(s, verdict);
    case ReloadActivates(outcome, failure) => ActivateReloadKeepsInv(s, outcome, failure);
    case ReloadDetaches(marks) => DetachReloadKeepsInv(s, marks);
  }

  lemma OtherKeepsInv(s: Sys, step: Step)
    requires Inv(s) && Enabled(s, step) && !IsHandler(step) && !IsWrite(step) && !IsReload(step)
    ensures Inv(Next(s, step))
  {
    match step
    case Touch => TouchKeepsInv(s);
    case Elsewhere => ElsewhereKeepsInv(s);
    case IndexLoads(_) =>
    case HeldStops =>
    case Crash(instance) => BootInv(instance, s.lane.stored);
  }

  lemma StepKeepsInv(s: Sys, step: Step)
    requires Inv(s) && Enabled(s, step)
    ensures Inv(Next(s, step))
  {
    if IsHandler(step) {
      HandlerKeepsInv(s, step);
    } else if IsWrite(step) {
      WriteKeepsInv(s, step);
    } else if IsReload(step) {
      ReloadKeepsInv(s, step);
    } else {
      OtherKeepsInv(s, step);
    }
  }
}
