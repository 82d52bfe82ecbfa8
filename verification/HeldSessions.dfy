/**
  packages/eliza-service/src/held-sessions.ts: the reload scheduler. What one reload does to its
  entity is in SessionProtocol; here a reload is a run that ends in "done" or "retry".

  Methods are what runs between two awaits: the index, a request for an entity, a finished reload, a
  backoff timer, a forget. `armed` holds the runtime's timers, each with the entity of its callback.
 */
module HeldSessionsScheduler {
  import opened Numbers
  import opened Options

  datatype Phase = Fresh | Indexing | Ready | Halted

  /** A backoff entry; its timer ends it by setting `until` to 0. */
  datatype Backoff = Backoff(attempts: nat, until: nat, timer: Option<nat>)

  /** A request or the queue must wait for this entry's timer. */
  predicate Waits(backoff: map<string, Backoff>, e: string, now: nat) { e in backoff && backoff[e].until > now }

  /** 2 ** n */
  function PowerOfTwo(n: nat): nat { if n == 0 then 1 else 2 * PowerOfTwo(n - 1) }

  /** indexOf and splice: the queue without its first occurrence of `e`. */
  function Without(queue: seq<string>, e: string): (rest: seq<string>)
    ensures forall other | other != e :: other in rest <==> other in queue
    ensures |rest| <= |queue|
  {
    if queue == [] then []
    else if queue[0] == e then queue[1..]
    else [queue[0]] + Without(queue[1..], e)
  }

  /** The insertion order of the `pending` set: what the space lists, but for entities with state and repetitions. */
  function Listed(ids: seq<string>, known: set<string>): seq<string> {
    if ids == [] then []
    else
      var listed, e := Listed(ids[..|ids| - 1], known), ids[|ids| - 1];
      if e in known || e in listed then listed else listed + [e]
  }

  /**
    The scheduler's state. `wanted` is what the proof adds: the entities queued by the index or asked
    for by a request, whose reload must not be lost.
   */
  datatype Schedule = Schedule(
    phase: Phase,
    pending: set<string>,
    queue: seq<string>,
    inflight: set<string>,
    backoff: map<string, Backoff>,
    armed: map<nat, string>,
    nextTimer: nat,
    wanted: set<string>)
  {
    /** The entity's reload is going to happen: it is queued, running, or its timer will queue it. */
    predicate Scheduled(e: string) {
      || e in queue
      || e in inflight
      || (e in backoff && backoff[e].timer.Some? && backoff[e].timer.value in armed && armed[backoff[e].timer.value] == e)
    }

    /** An entry whose timer has fired has `until` 0; any other has its own armed timer. */
    ghost predicate TimersValid() {
      && backoff.Keys <= pending
      && (forall e | e in backoff :: if backoff[e].timer.None? then backoff[e].until == 0
            else backoff[e].timer.value in armed && armed[backoff[e].timer.value] == e)
      && (forall t | t in armed :: t < nextTimer)
    }

    /** What holds even before pump() has run: no wakeup is lost. */
    ghost predicate Consistent() {
      && (phase.Fresh? || phase.Indexing? ==> pending == {} && queue == [] && inflight == {} && backoff == map[] && armed == map[] && wanted == {})
      && (phase.Ready? ==> TimersValid() && forall e | e in wanted && e in pending :: Scheduled(e))
    }

    /** Between any two events, moreover, nothing stays queued while a slot is free. */
    ghost predicate Valid(concurrency: nat) {
      Consistent() && (phase.Ready? && queue != [] ==> |inflight| >= concurrency)
    }

    /** pump() passes over the head of the queue: settled meanwhile, in flight, or left to its timer. */
    predicate Skips(now: nat)
      requires queue != []
    {
      queue[0] !in pending || queue[0] in inflight || Waits(backoff, queue[0], now)
    }

    function Step(now: nat): Schedule
      requires queue != []
    {
      this.(queue := queue[1..], inflight := if Skips(now) then inflight else inflight + {queue[0]})
    }

    function Pumped(concurrency: nat, now: nat): Schedule
      decreases |queue|
    {
      if !phase.Ready? || queue == [] || |inflight| >= concurrency then this else Step(now).Pumped(concurrency, now)
    }

    /** settle(), which is also forget(). */
    function Settled(e: string): Schedule {
      this.(pending := pending - {e}, backoff := backoff - {e},
            armed := if e in backoff && backoff[e].timer.Some? then armed - {backoff[e].timer.value} else armed)
    }

    function Attempts(e: string): nat { (if e in backoff then backoff[e].attempts else 0) + 1 }

    function Retried(e: string, until: nat): Schedule {
      this.(backoff := backoff[e := Backoff(Attempts(e), until, Some(nextTimer))], armed := armed[nextTimer := e], nextTimer := nextTimer + 1)
    }

    predicate Retries(e: string, retry: bool) { retry && phase.Ready? && e in pending }

    function Ended(e: string, retry: bool, until: nat): Schedule {
      (if Retries(e, retry) then Retried(e, until) else Settled(e)).(inflight := inflight - {e})
    }

    function Requested(e: string, now: nat): Schedule {
      var asked := this.(wanted := wanted + {e});
      if e !in pending || e in inflight then asked
      else if Waits(backoff, e, now) then asked.(queue := Without(queue, e))
      else asked.(queue := Without(queue, e), inflight := inflight + {e})
    }

    /** index(): everything listed becomes pending, and its first `eager` entities are queued. */
    function Indexed(listed: seq<string>, eager: nat): Schedule {
      var first := listed[..Min(eager, |listed|)];
      this.(phase := Ready, pending := (set e | e in listed), queue := queue + first, wanted := (set e | e in first))
    }

    function Fired(t: nat): Schedule
      requires t in armed
    {
      var e := armed[t];
      this.(armed := armed - {t},
            backoff := if e in backoff && backoff[e].timer == Some(t) then backoff[e := backoff[e].(timer := None, until := 0)] else backoff,
            queue := if e in pending then [e] + queue else queue)
    }
  }

  lemma StepIsConsistent(s: Schedule, now: nat)
    requires s.Consistent() && s.phase.Ready? && s.queue != []
    ensures s.Step(now).Consistent()
  {
    var t := s.Step(now);
    forall e | e in t.wanted && e in t.pending ensures t.Scheduled(e) {
      assert s.Scheduled(e);
    }
  }

  /** pump() loses no wakeup and leaves nothing queued while a slot is free. */
  lemma {:induction false} PumpedIsValid(s: Schedule, concurrency: nat, now: nat)
    requires s.Consistent()
    ensures s.Pumped(concurrency, now).Valid(concurrency)
    ensures var p := s.Pumped(concurrency, now); p == s.(queue := p.queue, inflight := p.inflight)
    decreases |s.queue|
  {
    if s.phase.Ready? && s.queue != [] && |s.inflight| < concurrency {
      StepIsConsistent(s, now);
      PumpedIsValid(s.Step(now), concurrency, now);
    }
  }

  /**
    pump() starts exactly those of the oldest queued entities that are pending and not waiting for a
    timer; it takes the queue from its head until no slot is free, and never starts more than there are slots.
   */
  lemma {:induction false} PumpStartsTheOldest(s: Schedule, concurrency: nat, now: nat) returns (k: nat)
    ensures var p := s.Pumped(concurrency, now);
      && k <= |s.queue| && p.queue == s.queue[k..]
      && s.inflight <= p.inflight && (|p.inflight| <= concurrency || p.inflight == s.inflight)
      && (k < |s.queue| && s.phase.Ready? ==> |p.inflight| >= concurrency)
      && forall e :: e in p.inflight <==> e in s.inflight || (e in s.queue[..k] && e in s.pending && !Waits(s.backoff, e, now))
    decreases |s.queue|
  {
    k := 0;
    if s.phase.Ready? && s.queue != [] && |s.inflight| < concurrency {
      var j := PumpStartsTheOldest(s.Step(now), concurrency, now);
      k := j + 1;
      assert s.queue[1..][j..] == s.queue[k..];
      assert s.queue[..k] == [s.queue[0]] + s.queue[1..][..j];
    }
  }

  lemma SettledIsValid(s: Schedule, e: string, concurrency: nat)
    requires s.Consistent()
    ensures s.Settled(e).Consistent() && (s.Valid(concurrency) ==> s.Settled(e).Valid(concurrency))
  {
    var t := s.Settled(e);
    if s.phase.Ready? {
      forall other | other in t.wanted && other in t.pending ensures t.Scheduled(other) {
        assert s.Scheduled(other);
      }
    }
  }

  lemma EndedIsConsistent(s: Schedule, e: string, retry: bool, until: nat)
    requires s.Consistent() && e in s.inflight
    ensures s.Ended(e, retry, until).Consistent()
  {
    var t := s.Ended(e, retry, until);
    if s.phase.Ready? {
      forall other | other in t.wanted && other in t.pending ensures t.Scheduled(other) {
        assert s.Scheduled(other);
      }
    }
  }

  lemma RequestedIsValid(s: Schedule, e: string, now: nat, concurrency: nat)
    requires s.Valid(concurrency) && s.phase.Ready?
    ensures s.Requested(e, now).Valid(concurrency)
    ensures e in s.pending ==> s.Requested(e, now).Scheduled(e)
  {
    var t := s.Requested(e, now);
    forall other | other in t.wanted && other in t.pending ensures t.Scheduled(other) {
      assert other != e ==> s.Scheduled(other);
      assert Waits(s.backoff, e, now) ==> s.backoff[e].timer.Some?;
    }
    assert t.inflight == s.inflight || |t.inflight| == |s.inflight| + 1;
  }

  lemma FiredIsConsistent(s: Schedule, t: nat)
    requires s.Consistent() && t in s.armed
    ensures s.Fired(t).Consistent()
  {
    var u := s.Fired(t);
    if s.phase.Ready? {
      forall other | other in u.wanted && other in u.pending ensures u.Scheduled(other) {
        assert s.Scheduled(other);
      }
    }
  }

  /** A reload that ended is tried again, under a timer of its own, exactly when it asked for that and is still wanted; otherwise nothing of it is left. */
  lemma EndedIff(s: Schedule, e: string, retry: bool, until: nat)
    requires s.Consistent() && e in s.inflight
    ensures var t := s.Ended(e, retry, until);
      && e !in t.inflight
      && (e in t.pending <==> retry && s.phase.Ready? && e in s.pending)
      && (e in t.pending ==> t.Scheduled(e) && t.backoff[e].until == until)
      && (e in t.pending ==> t.backoff[e].attempts == (if e in s.backoff then s.backoff[e].attempts else 0) + 1)
      && (e !in t.pending ==> e !in t.backoff && (s.phase.Ready? ==> forall n | n in t.armed && e in s.backoff :: s.backoff[e].timer != Some(n)))
  {
  }

  /** A request starts the reload exactly when the entity is pending and its backoff, if any, is over. */
  lemma RequestedIff(s: Schedule, e: string, now: nat)
    ensures var t := s.Requested(e, now);
      && (e in t.inflight <==> e in s.inflight || (e in s.pending && (e in s.backoff ==> s.backoff[e].until <= now)))
      && t.inflight <= s.inflight + {e} && t.pending == s.pending && t.backoff == s.backoff
  {
  }

  /** When an entity's own timer fires and a slot is free, its reload starts at once. */
  lemma FiredStarts(s: Schedule, t: nat, concurrency: nat, now: nat)
    requires s.Consistent() && s.phase.Ready? && t in s.armed && s.armed[t] in s.pending
    requires s.armed[t] in s.backoff && s.backoff[s.armed[t]].timer == Some(t) && |s.inflight| < concurrency
    ensures s.armed[t] in s.Fired(t).Pumped(concurrency, now).inflight
  {
    var e, u := s.armed[t], s.Fired(t);
    assert u.queue[0] == e && !Waits(u.backoff, e, now);
    var k := PumpStartsTheOldest(u, concurrency, now);
    FreeSlotIsTaken(u, concurrency, now, k);
  }

  lemma FreeSlotIsTaken(u: Schedule, concurrency: nat, now: nat, k: nat)
    requires u.phase.Ready? && u.queue != [] && |u.inflight| < concurrency && k <= |u.queue|
    requires var p := u.Pumped(concurrency, now); p.queue == u.queue[k..]
    ensures k > 0 && u.queue[0] in u.queue[..k]
  {
    var j := PumpStartsTheOldest(u.Step(now), concurrency, now);
    assert |u.Pumped(concurrency, now).queue| == |u.queue| - 1 - j;
  }

  lemma {:induction false} DistinctCount(s: seq<string>)
    requires forall i, j | 0 <= i < j < |s| :: s[i] != s[j]
    ensures |set e | e in s| == |s|
  {
    if s != [] {
      DistinctCount(s[1..]);
      assert (set e | e in s) == {s[0]} + set e | e in s[1..];
    }
  }

  lemma {:induction false} ListedIs(ids: seq<string>, known: set<string>)
    ensures forall e :: e in Listed(ids, known) <==> e in ids && e !in known
    ensures forall i, j | 0 <= i < j < |Listed(ids, known)| :: Listed(ids, known)[i] != Listed(ids, known)[j]
  {
    if ids != [] {
      ListedIs(ids[..|ids| - 1], known);
      assert ids == ids[..|ids| - 1] + [ids[|ids| - 1]];
    }
  }

  /** Exactly the listed entities without local state become pending, and as many as are eager are wanted: each is queued. */
  lemma IndexedIsConsistent(s: Schedule, ids: seq<string>, known: set<string>, eager: nat)
    requires s.Consistent() && s.phase.Indexing?
    ensures var t := s.Indexed(Listed(ids, known), eager);
      && t.Consistent()
      && t.pending == (set e | e in ids && e !in known)
      && t.wanted <= t.pending && |t.wanted| == Min(eager, |t.pending|)
      && forall e | e in t.wanted :: e in t.queue
  {
    var listed := Listed(ids, known);
    ListedIs(ids, known);
    DistinctCount(listed);
    DistinctCount(listed[..Min(eager, |listed|)]);
  }

  class HeldSessions {
    const concurrency: nat
    const eagerLimit: nat
    const retryBaseMs: nat
    const retryMaxMs: nat
    var phase: Phase
    var pending: set<string>
    var queue: seq<string>
    var inflight: set<string>
    var backoff: map<string, Backoff>
    var running: int
    var armed: map<nat, string>
    var nextTimer: nat
    ghost var wanted: set<string>

    ghost function View(): Schedule
      reads this
    {
      Schedule(phase, pending, queue, inflight, backoff, armed, nextTimer, wanted)
    }

    ghost predicate Valid()
      reads this
    {
      running == |inflight| && View().Valid(concurrency)
    }

    constructor (concurrency: int, eagerLimit: int, retryBaseMs: nat, retryMaxMs: nat)
      ensures Valid() && View() == Schedule(Fresh, {}, [], {}, map[], map[], 0, {})
      ensures this.concurrency == (if concurrency < 1 then 1 else concurrency)
      ensures this.eagerLimit == (if eagerLimit < 0 then 0 else eagerLimit)
    {
      this.concurrency := if concurrency < 1 then 1 else concurrency;
      this.eagerLimit := if eagerLimit < 0 then 0 else eagerLimit;
      this.retryBaseMs, this.retryMaxMs := retryBaseMs, retryMaxMs;
      phase, pending, queue, inflight, backoff, running := Fresh, {}, [], {}, map[], 0;
      armed, nextTimer, wanted := map[], 0, {};
    }

    method Start()
      requires Valid()
      modifies this`phase
      ensures Valid() && phase == if old(phase).Fresh? then Indexing else old(phase)
    {
      if phase.Fresh? {
        phase := Indexing;
      }
    }

    /** A reload starts at once; starting one that is already in flight joins it. */
    method Run(e: string)
      requires running == |inflight|
      modifies this`running, this`inflight
      ensures inflight == old(inflight) + {e} && running == |inflight|
    {
      if e !in inflight {
        running := running + 1;
        inflight := inflight + {e};
      }
    }

    method Pump(now: nat)
      requires running == |inflight| && View().Consistent()
      modifies this`queue, this`inflight, this`running
      ensures View() == old(View()).Pumped(concurrency, now) && Valid()
    {
      while phase.Ready? && running < concurrency && queue != []
        invariant running == |inflight|
        invariant View().Pumped(concurrency, now) == old(View()).Pumped(concurrency, now)
        decreases |queue|
      {
        var e := queue[0];
        queue := queue[1..];
        if e !in pending || e in inflight {
          continue;
        }
        if e in backoff && backoff[e].until > now {
          continue; // its timer re-queues it
        }
        Run(e);
      }
      PumpedIsValid(old(View()), concurrency, now);
    }

    /** The continuation of index() after the list has arrived. */
    method IndexLoaded(ids: seq<string>, known: set<string>, now: nat)
      requires Valid()
      modifies this
      ensures Valid()
      ensures View() == if old(phase).Indexing? then old(View()).Indexed(Listed(ids, known), eagerLimit).Pumped(concurrency, now) else old(View())
    {
      if !phase.Indexing? {
        return;
      }
      IndexedIsConsistent(View(), ids, known, eagerLimit);
      var listed := [];
      for i := 0 to |ids|
        invariant listed == Listed(ids[..i], known)
        invariant View() == old(View())
      {
        assert ids[..i + 1][..i] == ids[..i];
        if ids[i] in known || ids[i] in listed {
          continue;
        }
        listed := listed + [ids[i]];
      }
      assert ids[..|ids|] == ids;
      pending := set e | e in listed;
      queue := queue + listed[..Min(eagerLimit, |listed|)];
      wanted := set e | e in listed[..Min(eagerLimit, |listed|)];
      phase := Ready;
      Pump(now);
    }

    /** prioritize(), which settled() calls only once the index is loaded: a request jumps the queue, but does not bypass an active backoff. */
    method Prioritize(e: string, now: nat)
      requires Valid() && phase.Ready?
      modifies this`queue, this`inflight, this`running, this`wanted
      ensures Valid() && View() == old(View()).Requested(e, now)
      ensures e in pending ==> View().Scheduled(e)
    {
      RequestedIsValid(View(), e, now, concurrency);
      wanted := wanted + {e};
      if e !in pending || e in inflight {
        return;
      }
      queue := Without(queue, e);
      if e in backoff && backoff[e].until > now {
        return;
      }
      Run(e);
    }

    function Delay(attempt: nat): nat {
      Min(retryMaxMs, retryBaseMs * PowerOfTwo(Min(if attempt == 0 then 0 else attempt - 1, 16)))
    }

    /** The first retry comes after the base delay, each later one after twice the one before, up to the maximum and for sixteen doublings. */
    lemma DelayDoubles(attempt: nat)
      requires attempt > 0
      ensures Delay(1) == Min(retryMaxMs, retryBaseMs)
      ensures attempt <= 16 ==> Delay(attempt + 1) == Min(retryMaxMs, 2 * Delay(attempt))
      ensures attempt > 16 ==> Delay(attempt + 1) == Delay(attempt)
    {
      assert PowerOfTwo(attempt) == 2 * PowerOfTwo(attempt - 1);
      assert retryBaseMs * PowerOfTwo(attempt) == 2 * (retryBaseMs * PowerOfTwo(attempt - 1));
    }

    method RetryLater(e: string, now: nat)
      modifies this`backoff, this`armed, this`nextTimer
      ensures View() == old(View()).Retried(e, now + Delay(old(View()).Attempts(e)))
    {
      var attempts := (if e in backoff then backoff[e].attempts else 0) + 1;
      armed := armed[nextTimer := e];
      backoff := backoff[e := Backoff(attempts, now + Delay(attempts), Some(nextTimer))];
      nextTimer := nextTimer + 1;
    }

    method Settle(e: string)
      requires View().Consistent()
      modifies this`pending, this`backoff, this`armed
      ensures View() == old(View()).Settled(e) && (old(Valid()) ==> Valid())
    {
      SettledIsValid(View(), e, concurrency);
      pending := pending - {e};
      if e in backoff {
        if backoff[e].timer.Some? {
          armed := armed - {backoff[e].timer.value};
        }
      }
      backoff := backoff - {e};
    }

    /** A reload of `e` ended; its slot is released in the same turn, before any timer can fire. */
    method Finish(e: string, retry: bool, now: nat)
      requires Valid() && e in inflight
      modifies this`pending, this`queue, this`inflight, this`running, this`backoff, this`armed, this`nextTimer
      ensures Valid()
      ensures var ended := old(View()).Ended(e, retry, now + Delay(old(View()).Attempts(e)));
        View() == ended.Pumped(concurrency, now)
    {
      ghost var ended := View().Ended(e, retry, now + Delay(View().Attempts(e)));
      EndedIsConsistent(View(), e, retry, now + Delay(View().Attempts(e)));
      if retry && phase.Ready? && e in pending {
        RetryLater(e, now);
      } else {
        Settle(e);
      }
      running := running - 1;
      inflight := inflight - {e};
      assert View() == ended;
      Pump(now);
    }

    /** The callback of timer `t`: the timer, not the wall clock, ends the backoff. */
    method TimerFires(t: nat, now: nat)
      requires Valid() && t in armed
      modifies this`queue, this`inflight, this`running, this`backoff, this`armed
      ensures Valid()
      ensures View() == if old(armed)[t] in pending then old(View()).Fired(t).Pumped(concurrency, now) else old(View()).Fired(t)
    {
      FiredIsConsistent(View(), t);
      var e := armed[t];
      armed := armed - {t};
      if e in backoff && backoff[e].timer == Some(t) {
        backoff := backoff[e := backoff[e].(timer := None, until := 0)];
      }
      if e in pending {
        queue := [e] + queue;
        Pump(now);
      }
    }

    /** stop(): no timer that an entry still holds survives. */
    method Stop()
      requires Valid()
      modifies this`phase, this`armed
      ensures Valid() && phase.Halted?
      ensures forall t :: t in armed <==> t in old(armed) && !exists e :: e in backoff && backoff[e].timer == Some(t)
    {
      phase := Halted;
      var rest := backoff.Keys;
      while rest != {}
        invariant phase.Halted? && rest <= backoff.Keys
        invariant forall t :: t in armed <==> t in old(armed) && !exists e :: e in backoff && e !in rest && backoff[e].timer == Some(t)
        decreases |rest|
      {
        var e :| e in rest;
        if backoff[e].timer.Some? {
          armed := armed - {backoff[e].timer.value};
        }
        rest := rest - {e};
      }
    }
  }
}
