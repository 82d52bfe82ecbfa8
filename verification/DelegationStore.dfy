/**
  packages/eliza-service/src/delegation-store.ts: the ordered write queue of each entity.

  A Lane is everything about one key: the stored value, the queue object that the map holds for it,
  every write promise made so far (a ticket is an index into `runs`) and the armed retry timers. A
  write waits for the tail it was chained on, not for some lock, so "one write at a time" and "a
  queue is dropped only when idle" are theorems about the chain (Ordered), not part of its type.
 */
module DelegationStores {
  import opened Options

  /** DesiredRecord. */
  datatype Want<V> = Put(value: V) | Delete | Keep

  /** Waiting on its tail; writing what it read from desired(); settled with its cleanup still due; over. */
  datatype Phase<V> = Waiting | Writing(want: Want<V>, landed: bool) | Settling(ok: bool) | Over(ok: bool) {
    predicate Settled() { Settling? || Over? }
  }

  /** `queue` is the identity of the EntityQueue in the write's closure, `after` the tail it awaits. */
  datatype Run<V> = Run(queue: nat, after: Option<nat>, phase: Phase<V>)

  datatype Queue = Queue(id: nat, tail: Option<nat>, queued: Option<nat>, retry: Option<nat>, attempts: nat)

  /** Armed retry timers, each with the queue its callback belongs to. */
  datatype Timers = Timers(armed: map<nat, nat>, made: nat)

  function Effect<V>(want: Want<V>, stored: Option<V>): Option<V> {
    match want
    case Put(value) => Some(value)
    case Delete => None
    case Keep => stored
  }

  datatype Lane<V> = Lane(stored: Option<V>, queue: Option<Queue>, runs: seq<Run<V>>, timers: Timers, stopped: bool) {

    /** sync(): share the write that has not read the state yet, or chain a new one on the tail. */
    function Sync(): (Lane<V>, nat) {
      var q := if queue.Some? then queue.value else Queue(|runs|, None, None, None, 0);
      if q.queued.Some? then (this.(queue := Some(q)), q.queued.value)
      else
        var armed := if q.retry.Some? then timers.armed - {q.retry.value} else timers.armed;
        (this.(queue := Some(q.(tail := Some(|runs|), queued := Some(|runs|), retry := None)),
               runs := runs + [Run(q.id, q.tail, Waiting)],
               timers := timers.(armed := armed)),
         |runs|)
    }

    /** The queue object of run `t`, when the map still holds that object. */
    function Own(t: nat): Option<Queue>
      requires t < |runs|
    {
      if queue.Some? && queue.value.id == runs[t].queue then queue else None
    }

    predicate CanBegin(t: nat) {
      && t < |runs| && runs[t].phase.Waiting?
      && (runs[t].after.Some? ==> runs[t].after.value < |runs| && runs[runs[t].after.value].phase.Over?)
    }

    /** The tail resolved: forget "queued" and read the desired state. */
    function Begin(t: nat, want: Want<V>): Lane<V>
      requires CanBegin(t)
    {
      var q := Own(t);
      this.(runs := runs[t := runs[t].(phase := Writing(want, false))],
            queue := if q.Some? && q.value.queued == Some(t) then Some(q.value.(queued := None)) else queue)
    }

    predicate CanLand(t: nat) { t < |runs| && runs[t].phase.Writing? && !runs[t].phase.want.Keep? }

    /** The key-value store applies the write, at some instant while it is in flight. */
    function Land(t: nat): Lane<V>
      requires CanLand(t)
    {
      this.(stored := Effect(runs[t].phase.want, stored),
            runs := runs[t := runs[t].(phase := Writing(runs[t].phase.want, true))])
    }

    /** A write resolves true only if it was applied; a failure may have been applied or not. */
    predicate CanFinish(t: nat, ok: bool) {
      && t < |runs| && runs[t].phase.Writing?
      && (if runs[t].phase.want.Keep? then ok else ok ==> runs[t].phase.landed)
    }

    /** Success clears the attempts; a failed delete arms a retry, overwriting any handle kept before. */
    function Finish(t: nat, ok: bool): Lane<V>
      requires CanFinish(t, ok)
    {
      var q := Own(t);
      var settled := this.(runs := runs[t := runs[t].(phase := Settling(ok))]);
      if ok then
        settled.(queue := if q.Some? then Some(q.value.(attempts := 0)) else queue)
      else if runs[t].phase.want.Delete? && !stopped then
        settled.(timers := Timers(timers.armed[timers.made := runs[t].queue], timers.made + 1),
                 queue := if q.Some? then Some(q.value.(attempts := q.value.attempts + 1, retry := Some(timers.made))) else queue)
      else settled
    }

    predicate CanClean(t: nat) { t < |runs| && runs[t].phase.Settling? }

    /** The reaction on the write's own tail: drop the queue when nothing is queued and no retry is kept. */
    function Clean(t: nat): Lane<V>
      requires CanClean(t)
    {
      var q := Own(t);
      this.(runs := runs[t := runs[t].(phase := Over(runs[t].phase.ok))],
            queue := if q.Some? && q.value.queued.None? && q.value.retry.None? then None else queue)
    }

    /** A retry timer fires: forget the handle on its own queue object, then sync. */
    function Fire(timer: nat): Lane<V>
      requires timer in timers.armed
    {
      var freed := this.(timers := timers.(armed := timers.armed - {timer}));
      var q := if queue.Some? && queue.value.id == timers.armed[timer] then Some(queue.value.(retry := None)) else queue;
      freed.(queue := q).Sync().0
    }

    /** Clear the handle the queue still keeps; a timer whose handle was overwritten stays armed. */
    function Disarm(): Lane<V> {
      if queue.Some? && queue.value.retry.Some? then
        this.(queue := Some(queue.value.(retry := None)),
              timers := timers.(armed := timers.armed - {queue.value.retry.value}))
      else this
    }

    function Stop(): Lane<V> { this.(stopped := true).Disarm() }

    /** Ticket `t` has resolved, with this answer. */
    function Answer(t: nat): Option<bool> {
      if t < |runs| && runs[t].phase.Settled() then Some(runs[t].phase.ok) else None
    }

    /**
      The chain invariant: only the last write may be waiting, only the last two may be unfinished,
      and while any is unfinished the map holds the very queue object they belong to.
     */
    ghost predicate Ordered() {
      && (forall t | 0 <= t < |runs| - 2 :: runs[t].phase.Over?)
      && (|runs| >= 2 && !runs[|runs| - 2].phase.Over? ==>
            && !runs[|runs| - 2].phase.Waiting?
            && runs[|runs| - 1].phase.Waiting? && runs[|runs| - 1].after == Some(|runs| - 2))
      && (forall t | 0 <= t < |runs| && !runs[t].phase.Over? ::
            queue.Some? && queue.value.id == runs[t].queue && queue.value.tail == Some(|runs| - 1))
      && (queue.Some? ==>
            && queue.value.tail == Some(|runs| - 1) && |runs| > 0
            && queue.value.queued == (if runs[|runs| - 1].phase.Waiting? then Some(|runs| - 1) else None)
            && (queue.value.retry.Some? ==>
                  queue.value.retry.value in timers.armed && timers.armed[queue.value.retry.value] == queue.value.id))
      && (forall timer | timer in timers.armed :: timer < timers.made)
      && (forall t | 0 <= t < |runs| && runs[t].phase.Writing? && runs[t].phase.landed ::
            stored == Effect(runs[t].phase.want, stored))
    }
  }

  /** What can happen to a lane. */
  datatype Event<V> =
    | Synced
    | Began(ticket: nat, want: Want<V>)
    | Landed(ticket: nat)
    | Finished(ticket: nat, ok: bool)
    | Cleaned(ticket: nat)
    | Fired(timer: nat)
    | Stopped

  predicate Possible<V>(l: Lane<V>, e: Event<V>) {
    match e
    case Synced => true
    case Began(t, _) => l.CanBegin(t)
    case Landed(t) => l.CanLand(t)
    case Finished(t, ok) => l.CanFinish(t, ok)
    case Cleaned(t) => l.CanClean(t)
    case Fired(timer) => timer in l.timers.armed
    case Stopped => true
  }

  function After<V>(l: Lane<V>, e: Event<V>): Lane<V>
    requires Possible(l, e)
  {
    match e
    case Synced => l.Sync().0
    case Began(t, want) => l.Begin(t, want)
    case Landed(t) => l.Land(t)
    case Finished(t, ok) => l.Finish(t, ok)
    case Cleaned(t) => l.Clean(t)
    case Fired(timer) => l.Fire(timer)
    case Stopped => l.Stop()
  }

  lemma SyncKeepsOrder<V>(l: Lane<V>)
    requires l.Ordered()
    ensures l.Sync().0.Ordered()
    ensures l.Sync().1 < |l.Sync().0.runs| && l.Sync().0.runs[l.Sync().1].phase.Waiting?
  {
  }

  lemma BeginKeepsOrder<V>(l: Lane<V>, t: nat, want: Want<V>)
    requires l.Ordered() && l.CanBegin(t)
    ensures l.Begin(t, want).Ordered()
  {
  }

  lemma LandKeepsOrder<V>(l: Lane<V>, t: nat)
    requires l.Ordered() && l.CanLand(t)
    ensures l.Land(t).Ordered()
  {
  }

  lemma FinishKeepsOrder<V>(l: Lane<V>, t: nat, ok: bool)
    requires l.Ordered() && l.CanFinish(t, ok)
    ensures l.Finish(t, ok).Ordered()
  {
  }

  lemma CleanKeepsOrder<V>(l: Lane<V>, t: nat)
    requires l.Ordered() && l.CanClean(t)
    ensures l.Clean(t).Ordered()
  {
  }

  lemma FireKeepsOrder<V>(l: Lane<V>, timer: nat)
    requires l.Ordered() && timer in l.timers.armed
    ensures l.Fire(timer).Ordered()
  {
    var freed := l.(timers := l.timers.(armed := l.timers.armed - {timer}));
    var q := if l.queue.Some? && l.queue.value.id == l.timers.armed[timer] then Some(l.queue.value.(retry := None)) else l.queue;
    SyncKeepsOrder(freed.(queue := q));
  }

  lemma OrderKept<V>(l: Lane<V>, e: Event<V>)
    requires l.Ordered() && Possible(l, e)
    ensures After(l, e).Ordered()
  {
    match e
    case Synced => SyncKeepsOrder(l);
    case Began(t, want) => BeginKeepsOrder(l, t, want);
    case Landed(t) => LandKeepsOrder(l, t);
    case Finished(t, ok) => FinishKeepsOrder(l, t, ok);
    case Cleaned(t) => CleanKeepsOrder(l, t);
    case Fired(timer) => FireKeepsOrder(l, timer);
    case Stopped =>
  }

  /** sync() joins a write that has not read the state yet exactly when there is one, and otherwise adds one that has not. */
  lemma SyncIff<V>(l: Lane<V>)
    requires l.Ordered()
    ensures var (after, ticket) := l.Sync();
      && ticket < |after.runs| && after.runs[ticket].phase.Waiting?
      && (after.runs == l.runs <==> exists t :: 0 <= t < |l.runs| && l.runs[t].phase.Waiting?)
      && (after.runs != l.runs ==> |after.runs| == |l.runs| + 1 && after.runs[..|l.runs|] == l.runs && ticket == |l.runs|)
      && after.stored == l.stored
  {
    if l.queue.Some? && l.queue.value.queued.Some? {
      assert l.runs[|l.runs| - 1].phase.Waiting?;
    }
  }

  /** A retry is armed exactly when a delete has failed and the store has not been stopped. */
  lemma RetriesIff<V>(l: Lane<V>, t: nat, ok: bool)
    requires l.Ordered() && l.CanFinish(t, ok)
    ensures l.Finish(t, ok).timers.armed != l.timers.armed <==> !ok && l.runs[t].phase.want.Delete? && !l.stopped
    ensures l.Finish(t, ok).timers.armed != l.timers.armed ==> l.Finish(t, ok).timers.armed == l.timers.armed[l.timers.made := l.runs[t].queue]
    ensures l.Finish(t, ok).stored == l.stored && l.Finish(t, ok).Answer(t) == Some(ok)
  {
    assert l.timers.made !in l.timers.armed;
    assert l.timers.made in l.timers.armed[l.timers.made := l.runs[t].queue];
  }

  /** The queue of a key is dropped exactly when its last write has settled and no retry is kept for it. */
  lemma DroppedIff<V>(l: Lane<V>, t: nat)
    requires l.Ordered() && l.CanClean(t)
    ensures l.Clean(t).queue.None? <==> t == |l.runs| - 1 && l.queue.value.retry.None?
    ensures l.Clean(t).queue.Some? ==> l.Clean(t).queue == l.queue
  {
  }

  /** `states[i + 1]` follows from `states[i]` by `events[i]`. */
  ghost predicate Trace<V>(states: seq<Lane<V>>, events: seq<Event<V>>) {
    && |states| == |events| + 1
    && states[0].Ordered()
    && forall i | 0 <= i < |events| :: Possible(states[i], events[i]) && states[i + 1] == After(states[i], events[i])
  }

  lemma {:induction false} TraceOrdered<V>(states: seq<Lane<V>>, events: seq<Event<V>>, i: nat)
    requires Trace(states, events) && i < |states|
    ensures states[i].Ordered()
  {
    if i > 0 {
      TraceOrdered(states, events, i - 1);
      OrderKept(states[i - 1], events[i - 1]);
    }
  }

  /**
    Writes of one key run strictly one at a time, and the map never loses a queue that still has a
    write queued, in flight or awaiting its cleanup.
   */
  lemma OneWriteAtATime<V>(states: seq<Lane<V>>, events: seq<Event<V>>, i: nat)
    requires Trace(states, events) && i < |states|
    ensures forall s, t | 0 <= s < |states[i].runs| && 0 <= t < |states[i].runs| ::
              states[i].runs[s].phase.Writing? && states[i].runs[t].phase.Writing? ==> s == t
    ensures forall t | 0 <= t < |states[i].runs| ::
              !states[i].runs[t].phase.Over? ==> states[i].queue.Some? && states[i].queue.value.id == states[i].runs[t].queue
  {
    TraceOrdered(states, events, i);
  }

  /** The index at which run `t` stops waiting. */
  lemma {:induction false} FindBegin<V>(states: seq<Lane<V>>, events: seq<Event<V>>, t: nat, lo: nat, hi: nat) returns (i: nat)
    requires Trace(states, events) && lo <= hi < |states|
    requires t < |states[lo].runs| && states[lo].runs[t].phase.Waiting?
    requires t < |states[hi].runs| && !states[hi].runs[t].phase.Waiting?
    ensures lo <= i < hi && events[i].Began? && events[i].ticket == t
    decreases hi - lo
  {
    TraceOrdered(states, events, lo);
    if events[lo].Began? && events[lo].ticket == t {
      i := lo;
    } else {
      i := FindBegin(states, events, t, lo + 1, hi);
    }
  }

  /** A write goes on through every event but its own end. */
  lemma WritingGoesOn<V>(l: Lane<V>, e: Event<V>, t: nat, want: Want<V>)
    requires l.Ordered() && Possible(l, e) && !(e.Finished? && e.ticket == t)
    requires t < |l.runs| && l.runs[t].phase.Writing? && l.runs[t].phase.want == want
    ensures t < |After(l, e).runs| && After(l, e).runs[t].phase.Writing? && After(l, e).runs[t].phase.want == want
  {
  }

  /** The index at which run `t`, writing `want`, settles; until then it is the only write and `want` is kept. */
  lemma {:induction false} FindFinish<V>(states: seq<Lane<V>>, events: seq<Event<V>>, t: nat, want: Want<V>, lo: nat, hi: nat) returns (j: nat)
    requires Trace(states, events) && lo <= hi < |states|
    requires t < |states[lo].runs| && states[lo].runs[t].phase.Writing? && states[lo].runs[t].phase.want == want
    requires states[hi].Answer(t) == Some(true)
    ensures lo <= j < hi && events[j] == Finished(t, true)
    ensures states[j + 1].stored == Effect(want, states[j].stored) == states[j].stored
    decreases hi - lo
  {
    TraceOrdered(states, events, lo);
    if events[lo].Finished? && events[lo].ticket == t {
      j := lo;
      if !events[lo].ok {
        SettledForGood(states, events, t, lo + 1, hi);
      }
    } else {
      WritingGoesOn(states[lo], events[lo], t, want);
      j := FindFinish(states, events, t, want, lo + 1, hi);
    }
  }

  lemma AnswerGoesOn<V>(l: Lane<V>, e: Event<V>, t: nat)
    requires Possible(l, e) && l.Answer(t).Some?
    ensures After(l, e).Answer(t) == l.Answer(t)
  {
  }

  lemma {:induction false} SettledForGood<V>(states: seq<Lane<V>>, events: seq<Event<V>>, t: nat, lo: nat, hi: nat)
    requires Trace(states, events) && lo <= hi < |states|
    requires states[lo].Answer(t).Some?
    ensures states[hi].Answer(t) == states[lo].Answer(t)
    decreases hi - lo
  {
    if lo < hi {
      AnswerGoesOn(states[lo], events[lo], t);
      SettledForGood(states, events, t, lo + 1, hi);
    }
  }

  /** The ticket of a call is a new run that waits. */
  lemma CallWaits<V>(states: seq<Lane<V>>, events: seq<Event<V>>, call: nat)
    requires Trace(states, events) && call < |events| && events[call].Synced?
    ensures var t := states[call].Sync().1; t < |states[call + 1].runs| && states[call + 1].runs[t].phase.Waiting?
  {
    TraceOrdered(states, events, call);
    SyncKeepsOrder(states[call]);
  }

  /** When a write begins, every older one is over. */
  lemma BeginsAlone<V>(states: seq<Lane<V>>, events: seq<Event<V>>, begin: nat)
    requires Trace(states, events) && begin < |events| && events[begin].Began?
    ensures var t := events[begin].ticket;
      && t < |states[begin + 1].runs| && states[begin + 1].runs[t].phase.Writing? && states[begin + 1].runs[t].phase.want == events[begin].want
      && forall older | 0 <= older < t :: older < |states[begin].runs| && states[begin].runs[older].phase.Over?
  {
    TraceOrdered(states, events, begin);
  }

  /**
    What "sync() resolved true" means. The write that settled the ticket read the desired state after
    the call; when it settled, the stored value was what that read asked for; and every write older
    than it was over before it began, so none of them can land later.
   */
  lemma SyncedTrueIsDurable<V>(states: seq<Lane<V>>, events: seq<Event<V>>, call: nat, end: nat)
      returns (begin: nat, finish: nat)
    requires Trace(states, events) && call < end < |states| && events[call].Synced?
    requires states[end].Answer(states[call].Sync().1) == Some(true)
    ensures var t := states[call].Sync().1;
      && call < begin < finish < end
      && events[begin].Began? && events[begin].ticket == t
      && events[finish] == Finished(t, true)
      && states[finish + 1].stored == Effect(events[begin].want, states[finish].stored)
      && forall older | 0 <= older < t :: older < |states[begin].runs| && states[begin].runs[older].phase.Over?
  {
    var t := states[call].Sync().1;
    CallWaits(states, events, call);
    begin := FindBegin(states, events, t, call + 1, end);
    BeginsAlone(states, events, begin);
    finish := FindFinish(states, events, t, events[begin].want, begin + 1, end);
    TraceOrdered(states, events, begin + 1);
  }

  /** /^[A-Za-z0-9._:-]{1,128}$/ without "..". */
  predicate ValidSegment(value: string) {
    && 1 <= |value| <= 128
    && (forall i | 0 <= i < |value| ::
          'A' <= value[i] <= 'Z' || 'a' <= value[i] <= 'z' || '0' <= value[i] <= '9' || value[i] in "._:-")
    && forall i | 0 <= i < |value| - 1 :: !(value[i] == '.' && value[i + 1] == '.')
  }

  /**
    The store itself. Promise reactions and timer callbacks are methods that the runtime calls in the
    order the lane allows; `runs`, `timers` and `stored` are the runtime's and the space's side.
   */
  class DelegationStore<V> {
    var queues: map<string, Queue>
    var runs: map<string, seq<Run<V>>>
    var timers: map<string, Timers>
    var stored: map<string, V>
    var stopped: bool

    constructor (stored: map<string, V>)
      ensures this.stored == stored && !stopped && queues == map[] && runs == map[] && timers == map[]
      ensures forall key :: LaneOf(key).Ordered()
    {
      this.stored := stored;
      queues, runs, timers, stopped := map[], map[], map[], false;
    }

    function RunsOf(key: string): seq<Run<V>>
      reads this`runs
    {
      if key in runs then runs[key] else []
    }

    function TimersOf(key: string): Timers
      reads this`timers
    {
      if key in timers then timers[key] else Timers(map[], 0)
    }

    function LaneOf(key: string): Lane<V>
      reads this
    {
      Lane(if key in stored then Some(stored[key]) else None,
           if key in queues then Some(queues[key]) else None,
           RunsOf(key), TimersOf(key), stopped)
    }

    twostate predicate OthersKept(key: string)
      reads this
    {
      forall other :: other != key ==> LaneOf(other) == old(LaneOf(other))
    }

    /** An entity id outside the key alphabet is never written: its sync resolves false. */
    method Sync(entityId: string) returns (ticket: Option<nat>)
      modifies this`queues, this`runs, this`timers
      ensures OthersKept(entityId)
      ensures !ValidSegment(entityId) ==> ticket.None? && LaneOf(entityId) == old(LaneOf(entityId))
      ensures ValidSegment(entityId) ==> ticket.Some? && (LaneOf(entityId), ticket.value) == old(LaneOf(entityId)).Sync()
    {
      if !ValidSegment(entityId) {
        return None;
      }
      var chain := RunsOf(entityId);
      var q := if entityId in queues then queues[entityId] else Queue(|chain|, None, None, None, 0);
      queues := queues[entityId := q];
      if q.queued.Some? {
        return q.queued;
      }
      if q.retry.Some? {
        var known := TimersOf(entityId);
        timers := timers[entityId := known.(armed := known.armed - {q.retry.value})];
        q := q.(retry := None);
      }
      runs := runs[entityId := chain + [Run(q.id, q.tail, Waiting)]];
      q := q.(queued := Some(|chain|), tail := Some(|chain|));
      queues := queues[entityId := q];
      ticket := Some(|chain|);
    }

    method Begin(key: string, t: nat, want: Want<V>)
      requires LaneOf(key).CanBegin(t)
      modifies this`queues, this`runs
      ensures LaneOf(key) == old(LaneOf(key)).Begin(t, want) && OthersKept(key)
    {
      var run := runs[key][t];
      if key in queues && queues[key].id == run.queue && queues[key].queued == Some(t) {
        queues := queues[key := queues[key].(queued := None)];
      }
      runs := runs[key := runs[key][t := run.(phase := Writing(want, false))]];
    }

    method Land(key: string, t: nat)
      requires LaneOf(key).CanLand(t)
      modifies this`stored, this`runs
      ensures LaneOf(key) == old(LaneOf(key)).Land(t) && OthersKept(key)
    {
      var run := runs[key][t];
      match run.phase.want {
        case Put(value) => stored := stored[key := value];
        case Delete => stored := stored - {key};
      }
      runs := runs[key := runs[key][t := run.(phase := Writing(run.phase.want, true))]];
    }

    method Finish(key: string, t: nat, ok: bool)
      requires LaneOf(key).CanFinish(t, ok)
      modifies this`queues, this`runs, this`timers
      ensures LaneOf(key) == old(LaneOf(key)).Finish(t, ok) && OthersKept(key)
    {
      var run := runs[key][t];
      var mine := key in queues && queues[key].id == run.queue;
      if ok {
        if mine {
          queues := queues[key := queues[key].(attempts := 0)];
        }
      } else if run.phase.want.Delete? && !stopped {
        var known := TimersOf(key);
        timers := timers[key := Timers(known.armed[known.made := run.queue], known.made + 1)];
        if mine {
          queues := queues[key := queues[key].(attempts := queues[key].attempts + 1, retry := Some(known.made))];
        }
      }
      runs := runs[key := runs[key][t := run.(phase := Settling(ok))]];
    }

    method Clean(key: string, t: nat)
      requires LaneOf(key).CanClean(t)
      modifies this`queues, this`runs
      ensures LaneOf(key) == old(LaneOf(key)).Clean(t) && OthersKept(key)
    {
      var run := runs[key][t];
      if key in queues && queues[key].id == run.queue && queues[key].queued.None? && queues[key].retry.None? {
        queues := queues - {key};
      }
      runs := runs[key := runs[key][t := run.(phase := Over(run.phase.ok))]];
    }

    method Fire(key: string, timer: nat)
      requires ValidSegment(key) && timer in TimersOf(key).armed
      modifies this`queues, this`runs, this`timers
      ensures LaneOf(key) == old(LaneOf(key)).Fire(timer) && OthersKept(key)
    {
      var known := timers[key];
      timers := timers[key := known.(armed := known.armed - {timer})];
      if key in queues && queues[key].id == known.armed[timer] {
        queues := queues[key := queues[key].(retry := None)];
      }
      var _ := Sync(key);
    }

    method Disarm(key: string)
      requires key in queues
      modifies this`queues, this`timers
      ensures queues.Keys == old(queues.Keys)
      ensures LaneOf(key) == old(LaneOf(key)).Disarm() && OthersKept(key)
    {
      if queues[key].retry.Some? {
        var known := TimersOf(key);
        timers := timers[key := known.(armed := known.armed - {queues[key].retry.value})];
        queues := queues[key := queues[key].(retry := None)];
      }
    }

    method DisarmAll()
      modifies this`queues, this`timers
      ensures forall key :: LaneOf(key) == old(LaneOf(key)).Disarm()
    {
      var rest := queues.Keys;
      while rest != {}
        invariant rest <= queues.Keys == old(queues.Keys)
        invariant forall key :: LaneOf(key) == if key in rest then old(LaneOf(key)) else old(LaneOf(key)).Disarm()
        decreases |rest|
      {
        var key :| key in rest;
        Disarm(key);
        rest := rest - {key};
      }
    }

    method Stop()
      modifies this`stopped, this`queues, this`timers
      ensures forall key :: LaneOf(key) == old(LaneOf(key)).Stop()
    {
      stopped := true;
      assert forall key :: LaneOf(key) == old(LaneOf(key)).(stopped := true);
      DisarmAll();
    }
  }
}
