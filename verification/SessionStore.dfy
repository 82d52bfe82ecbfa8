/**
  packages/eliza-service/src/session-store.ts: the revision-fenced access state of each entity.

  A Slot is what the store holds about one entity, together with the counter that revisions are
  drawn from. Its members say what each operation does; the class SessionStore performs the same
  operations in place on the maps, for every entity, and is proved against them.
 */
module SessionStores {
  import opened Options

  /** `${instance}:${++sequence}`: the instance is the random id of one process. */
  datatype Revision = Revision(instance: nat, number: nat)

  /** NoAccess is the source's "none": an entry exists but grants nothing. */
  datatype AccessState = NoAccess | Activating | Active | Disconnected | Restoring | Revoked

  /** Tombstone marks of a revoked entry. */
  datatype Marks = Marks(exp: Option<int>, revokedAt: int)

  datatype Snapshot<R> = Snapshot(revision: Revision, state: AccessState, record: Option<R>, marks: Option<Marks>)

  datatype Staged<R> = Staged(revision: Revision, record: R)

  datatype Slot<R> = Slot(instance: nat, sequence: nat, access: Option<Snapshot<R>>, persisting: Option<Staged<R>>) {
    predicate Known() { access.Some? }

    /** SessionLease.isCurrent for a lease captured at `lease`. */
    predicate Current(lease: Revision) { access.Some? && access.value.revision == lease }

    predicate In(state: AccessState) { access.Some? && access.value.state == state }

    function Fresh(): Revision { Revision(instance, sequence + 1) }

    function Enter(state: AccessState): Slot<R> {
      this.(sequence := sequence + 1, access := Some(Snapshot(Fresh(), state, None, None)))
    }

    /** Replacing an entry drops whatever was staged for its predecessor. */
    function Replace(state: AccessState): Slot<R> { Enter(state).(persisting := None) }

    /** snapshot(): reading an unknown entity creates its "none" entry. */
    function Snap(): Slot<R> { if Known() then this else Enter(NoAccess) }

    function Reserve(expected: Option<Revision>): (Slot<R>, Option<Revision>) {
      var seen := if expected.Some? then Snap() else this;
      if expected.Some? && !seen.Current(expected.value) then (seen, None)
      else (seen.Replace(Activating), Some(seen.Fresh()))
    }

    function Commit(lease: Revision, record: R): (Slot<R>, bool) {
      if !Current(lease) || !In(Activating) then (this, false)
      else (this.(access := Some(Snapshot(lease, Active, Some(record), None)), persisting := None), true)
    }

    function Stage(lease: Revision, record: R): (Slot<R>, bool) {
      if !Current(lease) || !In(Activating) then (this, false)
      else (this.(persisting := Some(Staged(lease, record))), true)
    }

    /** staged(): only the current activating revision has a staged record. */
    function StagedNow(): Option<Staged<R>> {
      if In(Activating) && persisting.Some? && Current(persisting.value.revision) then persisting else None
    }

    function BeginRestore(revision: Revision): (Slot<R>, Option<Revision>) {
      if Known() then (this, None)
      else (this.(access := Some(Snapshot(revision, Restoring, None, None))), Some(revision))
    }

    function Restore(lease: Revision, record: R): (Slot<R>, bool) {
      if !Current(lease) || !In(Restoring) then (this, false)
      else (this.(access := Some(Snapshot(lease, Active, Some(record), None))), true)
    }

    /** Unlike its neighbours, tombstone() takes a snapshot before it looks at the lease. */
    function Tombstone(lease: Revision, marks: Marks): (Slot<R>, bool) {
      var seen := Snap();
      if !seen.Current(lease) || !(seen.In(Restoring) || seen.In(Revoked)) then (seen, false)
      else (seen.(access := Some(Snapshot(lease, Revoked, None, Some(marks)))), true)
    }

    function AbandonRestore(lease: Revision): Slot<R> {
      if Current(lease) && In(Restoring) then Replace(NoAccess) else this
    }

    function Fail(lease: Revision): Slot<R> {
      if Current(lease) then Replace(NoAccess) else this
    }

    function Disconnect(): Slot<R> { Replace(Disconnected) }

    /** The counter has passed `lease`, so no operation of this process can issue it (again). */
    predicate Covers(lease: Revision) {
      Known() && (lease.instance == instance ==> lease.number <= sequence)
    }
  }

  /** One call of a store operation for the entity, or of one that draws a revision for another entity. */
  datatype Operation<R> =
    | OpSnap
    | OpElsewhere
    | OpReserve(expected: Option<Revision>)
    | OpCommit(lease: Revision, record: R)
    | OpStage(lease: Revision, record: R)
    | OpBeginRestore(revision: Revision)
    | OpRestore(lease: Revision, record: R)
    | OpTombstone(lease: Revision, marks: Marks)
    | OpAbandonRestore(lease: Revision)
    | OpFail(lease: Revision)
    | OpDisconnect

  function Perform<R>(s: Slot<R>, op: Operation<R>): Slot<R> {
    match op
    case OpSnap => s.Snap()
    case OpElsewhere => s.(sequence := s.sequence + 1)
    case OpReserve(expected) => s.Reserve(expected).0
    case OpCommit(lease, record) => s.Commit(lease, record).0
    case OpStage(lease, record) => s.Stage(lease, record).0
    case OpBeginRestore(revision) => s.BeginRestore(revision).0
    case OpRestore(lease, record) => s.Restore(lease, record).0
    case OpTombstone(lease, marks) => s.Tombstone(lease, marks).0
    case OpAbandonRestore(lease) => s.AbandonRestore(lease)
    case OpFail(lease) => s.Fail(lease)
    case OpDisconnect => s.Disconnect()
  }

  function PerformAll<R>(s: Slot<R>, ops: seq<Operation<R>>): Slot<R>
    decreases |ops|
  {
    if ops == [] then s else PerformAll(Perform(s, ops[0]), ops[1..])
  }

  lemma {:induction false} PerformConcat<R>(s: Slot<R>, a: seq<Operation<R>>, b: seq<Operation<R>>)
    ensures PerformAll(s, a + b) == PerformAll(PerformAll(s, a), b)
    decreases |a|
  {
    if a == [] {
      assert a + b == b;
    } else {
      assert (a + b)[1..] == a[1..] + b;
      PerformConcat(Perform(s, a[0]), a[1..], b);
    }
  }

  /** A covered lease stays covered, and once outlived it stays outlived, under every run of operations. */
  lemma {:induction false} CoversForever<R>(s: Slot<R>, ops: seq<Operation<R>>, lease: Revision)
    requires s.Covers(lease)
    ensures PerformAll(s, ops).Covers(lease)
    ensures !s.Current(lease) ==> !PerformAll(s, ops).Current(lease)
    decreases |ops|
  {
    if ops != [] {
      CoversForever(Perform(s, ops[0]), ops[1..], lease);
    }
  }

  /**
    A lease that is current now, and is found not current after `first`, is not current after any
    continuation `second` either: no operation of the store ever makes it current again.
   */
  lemma LeaseNeverReturns<R>(s: Slot<R>, first: seq<Operation<R>>, second: seq<Operation<R>>, lease: Revision)
    requires s.Current(lease) && s.Covers(lease)
    requires !PerformAll(s, first).Current(lease)
    ensures !PerformAll(PerformAll(s, first), second).Current(lease)
  {
    CoversForever(s, first, lease);
    CoversForever(PerformAll(s, first), second, lease);
  }

  class SessionStore<R> {
    const instance: nat
    var sequence: nat
    var access: map<string, Snapshot<R>>
    var persisting: map<string, Staged<R>>
    /** Keys the invalidation listeners were called with, in order. */
    var notified: seq<string>

    constructor (instance: nat)
      ensures this.instance == instance && sequence == 0 && access == map[] && persisting == map[] && notified == []
    {
      this.instance := instance;
      sequence, access, persisting, notified := 0, map[], map[], [];
    }

    function SlotOf(key: string): Slot<R>
      reads this
    {
      Slot(instance, sequence,
           if key in access then Some(access[key]) else None,
           if key in persisting then Some(persisting[key]) else None)
    }

    /** Every other entity keeps its entry and its staged record. */
    twostate predicate OthersKept(key: string)
      reads this
    {
      forall other :: other != key ==> SlotOf(other) == old(SlotOf(other)).(sequence := sequence)
    }

    method NextRevision() returns (revision: Revision)
      modifies this`sequence
      ensures sequence == old(sequence) + 1 && revision == Revision(instance, sequence)
    {
      sequence := sequence + 1;
      revision := Revision(instance, sequence);
    }

    method Replace(key: string, state: AccessState)
      modifies this
      ensures SlotOf(key) == old(SlotOf(key)).Replace(state) && OthersKept(key)
      ensures notified == old(notified) + [key]
    {
      persisting := persisting - {key};
      var revision := NextRevision();
      access := access[key := Snapshot(revision, state, None, None)];
      notified := notified + [key];
    }

    method TakeSnapshot(key: string) returns (snapshot: Snapshot<R>)
      modifies this`sequence, this`access
      ensures SlotOf(key) == old(SlotOf(key)).Snap() && OthersKept(key)
      ensures SlotOf(key).access == Some(snapshot)
    {
      if key !in access {
        var revision := NextRevision();
        access := access[key := Snapshot(revision, NoAccess, None, None)];
      }
      snapshot := access[key];
    }

    method Reserve(key: string, expected: Option<Revision>) returns (lease: Option<Revision>)
      modifies this
      ensures (SlotOf(key), lease) == old(SlotOf(key)).Reserve(expected) && OthersKept(key)
      ensures notified == if lease.Some? then old(notified) + [key] else old(notified)
    {
      if expected.Some? {
        var snapshot := TakeSnapshot(key);
        if snapshot.revision != expected.value {
          return None;
        }
      }
      Replace(key, Activating);
      lease := Some(access[key].revision);
    }

    method Commit(key: string, lease: Revision, record: R) returns (ok: bool)
      modifies this`access, this`persisting
      ensures (SlotOf(key), ok) == old(SlotOf(key)).Commit(lease, record) && OthersKept(key)
    {
      if key !in access || access[key].revision != lease || access[key].state != Activating {
        return false;
      }
      access := access[key := Snapshot(lease, Active, Some(record), None)];
      persisting := persisting - {key};
      ok := true;
    }

    method Stage(key: string, lease: Revision, record: R) returns (ok: bool)
      modifies this`persisting
      ensures (SlotOf(key), ok) == old(SlotOf(key)).Stage(lease, record) && OthersKept(key)
    {
      if key !in access || access[key].revision != lease || access[key].state != Activating {
        return false;
      }
      persisting := persisting[key := Staged(lease, record)];
      ok := true;
    }

    method BeginRestore(key: string, revision: Revision) returns (lease: Option<Revision>)
      modifies this`access
      ensures (SlotOf(key), lease) == old(SlotOf(key)).BeginRestore(revision) && OthersKept(key)
    {
      if key in access {
        return None;
      }
      access := access[key := Snapshot(revision, Restoring, None, None)];
      lease := Some(revision);
    }

    method Restore(key: string, lease: Revision, record: R) returns (ok: bool)
      modifies this`access
      ensures (SlotOf(key), ok) == old(SlotOf(key)).Restore(lease, record) && OthersKept(key)
    {
      if key !in access || access[key].revision != lease || access[key].state != Restoring {
        return false;
      }
      access := access[key := Snapshot(lease, Active, Some(record), None)];
      ok := true;
    }

    method Tombstone(key: string, lease: Revision, marks: Marks) returns (ok: bool)
      modifies this`sequence, this`access
      ensures (SlotOf(key), ok) == old(SlotOf(key)).Tombstone(lease, marks) && OthersKept(key)
    {
      var snapshot := TakeSnapshot(key);
      if snapshot.revision != lease || (snapshot.state != Restoring && snapshot.state != Revoked) {
        return false;
      }
      access := access[key := Snapshot(lease, Revoked, None, Some(marks))];
      ok := true;
    }

    method AbandonRestore(key: string, lease: Revision)
      modifies this
      ensures SlotOf(key) == old(SlotOf(key)).AbandonRestore(lease) && OthersKept(key)
      ensures notified == if old(SlotOf(key).Current(lease) && SlotOf(key).In(Restoring)) then old(notified) + [key] else old(notified)
    {
      if key in access && access[key].revision == lease && access[key].state == Restoring {
        Replace(key, NoAccess);
      }
    }

    method Fail(key: string, lease: Revision)
      modifies this
      ensures SlotOf(key) == old(SlotOf(key)).Fail(lease) && OthersKept(key)
      ensures notified == if old(SlotOf(key).Current(lease)) then old(notified) + [key] else old(notified)
    {
      if key in access && access[key].revision == lease {
        Replace(key, NoAccess);
      }
    }

    method Disconnect(key: string) returns (revision: Revision)
      modifies this
      ensures SlotOf(key) == old(SlotOf(key)).Disconnect() && OthersKept(key)
      ensures SlotOf(key).Current(revision) && notified == old(notified) + [key]
    {
      Replace(key, Disconnected);
      revision := access[key].revision;
    }
  }
}
