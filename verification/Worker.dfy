/**
  packages/agent-client/src/worker.ts: the one serialized worker for all node calls, with a read lane
  that goes before the write lane and a circuit breaker.

  WorkerState carries, beside the worker's fields, the history that its promises are about: the jobs
  accepted, taken from a lane, sent and settled, and the recorded outcomes. The clock is read by the
  runtime, so every event brings its own `now`.
 */
module Workers {
  import opened Collections
  import opened Numbers
  import opened Options

  datatype Lane = Read | Write

  datatype BreakerState = Closed | Open | HalfOpen

  datatype Config = Config(threshold: int, openMs: nat, writeLimit: int)

  /** One recorded outcome of a call that was sent. */
  datatype Outcome = Success | Failure

  datatype Breaker = Breaker(state: BreakerState, failures: nat, openUntil: int) {
    /** breakerGate: None rejects; an elapsed window turns half-open and lets one probe through. */
    function Gate(now: int): Option<Breaker> {
      if state.Open? then (if now >= openUntil then Some(this.(state := HalfOpen)) else None) else Some(this)
    }

    function Opened(c: Config, now: int): Breaker { this.(state := Open, openUntil := now + c.openMs) }

    function Record(c: Config, outcome: Outcome, now: int): Breaker {
      if outcome.Success? then this.(state := Closed, failures := 0)
      else if state.HalfOpen? then Opened(c, now)
      else
        var counted := this.(failures := failures + 1);
        if counted.failures >= c.threshold then counted.Opened(c, now) else counted
    }
  }

  /** A call that was sent: the job and the time. */
  datatype Sent = Sent(job: nat, at: int)

  datatype WorkerState = WorkerState(
    readQueue: seq<nat>,
    writeQueue: seq<nat>,
    running: Option<nat>,
    breaker: Breaker,
    acceptedReads: seq<nat>,
    acceptedWrites: seq<nat>,
    takenReads: seq<nat>,
    takenWrites: seq<nat>,
    refused: seq<nat>,
    sent: seq<Sent>,
    settled: seq<nat>,
    outcomes: seq<Outcome>,
    lastFailure: int)
  {
    predicate Idle() { running.None? }

    function Waiting(): seq<nat> { readQueue + writeQueue }

    /** nextJob(): the oldest read, else the oldest write. */
    function Take(): (nat, WorkerState)
      requires Waiting() != []
    {
      if readQueue != [] then (readQueue[0], this.(readQueue := readQueue[1..], takenReads := takenReads + [readQueue[0]]))
      else (writeQueue[0], this.(writeQueue := writeQueue[1..], takenWrites := takenWrites + [writeQueue[0]]))
    }

    /** pump(): with the breaker open this empties both lanes, failing every job fast. */
    function Pump(now: int): WorkerState
      decreases |readQueue| + |writeQueue|
    {
      if !Idle() || Waiting() == [] then this
      else
        var (job, took) := Take();
        var gate := breaker.Gate(now);
        if gate.None? then took.(refused := refused + [job]).Pump(now)
        else took.(breaker := gate.value, running := Some(job), sent := sent + [Sent(job, now)])
    }

    /** write() refuses at once when the lane is full. */
    predicate Admits(c: Config, lane: Lane) { lane.Read? || |writeQueue| < c.writeLimit }

    function Submit(c: Config, lane: Lane, job: nat, now: int): WorkerState {
      if !Admits(c, lane) then this
      else if lane.Read? then this.(readQueue := readQueue + [job], acceptedReads := acceptedReads + [job]).Pump(now)
      else this.(writeQueue := writeQueue + [job], acceptedWrites := acceptedWrites + [job]).Pump(now)
    }

    /** The dispatched call settles: with a result, a rejection, or our own timeout. */
    function Settle(c: Config, outcome: Outcome, now: int): WorkerState
      requires running.Some?
    {
      this.(breaker := breaker.Record(c, outcome, now),
            outcomes := outcomes + [outcome],
            lastFailure := if outcome.Failure? then now else lastFailure,
            settled := settled + [running.value],
            running := None).Pump(now)
    }
  }

  const START := WorkerState([], [], None, Breaker(Closed, 0, 0), [], [], [], [], [], [], [], [], 0)

  datatype Event = Submitted(lane: Lane, job: nat, now: int) | Settles(outcome: Outcome, now: int)

  predicate Possible(s: WorkerState, e: Event) { e.Settles? ==> s.running.Some? }

  function After(c: Config, s: WorkerState, e: Event): WorkerState
    requires Possible(s, e)
  {
    match e
    case Submitted(lane, job, now) => s.Submit(c, lane, job, now)
    case Settles(outcome, now) => s.Settle(c, outcome, now)
  }

  /** The number of failures recorded since the last success. */
  function Trailing(outcomes: seq<Outcome>): nat {
    if outcomes == [] || outcomes[|outcomes| - 1].Success? then 0 else Trailing(outcomes[..|outcomes| - 1]) + 1
  }

  /** The threshold as a number of failures: even a threshold below one needs a failure to open. */
  function Trip(c: Config): nat { Max(1, c.threshold) }

  function Jobs(sent: seq<Sent>): seq<nat> { seq(|sent|, i requires 0 <= i < |sent| => sent[i].job) }

  /** What pump() keeps; `Idle` is for after it. */
  ghost predicate Accounted(c: Config, s: WorkerState) {
    && s.acceptedReads == s.takenReads + s.readQueue
    && s.acceptedWrites == s.takenWrites + s.writeQueue
    && Jobs(s.sent) == s.settled + (if s.running.Some? then [s.running.value] else [])
    && |s.outcomes| == |s.settled|
    && |s.writeQueue| <= Max(0, c.writeLimit)
    && (s.breaker.state != Closed <==> Trailing(s.outcomes) >= Trip(c))
    && (s.breaker.state == Closed ==> s.breaker.failures == Trailing(s.outcomes))
    && (s.breaker.state == HalfOpen ==> s.running.Some?)
    && (s.breaker.state == Open ==> s.running.None? && s.breaker.openUntil == s.lastFailure + c.openMs)
  }

  ghost predicate Valid(c: Config, s: WorkerState) {
    Accounted(c, s) && (s.running.None? ==> s.readQueue == [] && s.writeQueue == [])
  }

  /**
    One pump: the jobs it takes are the front of "reads, then writes", in order; at most one of them is
    sent, and only if the breaker lets it; the others are refused.
   */
  lemma {:induction false} PumpIsValid(c: Config, s: WorkerState, now: int)
    requires Accounted(c, s)
    ensures Valid(c, s.Pump(now))
    ensures var p := s.Pump(now);
      && p.settled == s.settled && p.outcomes == s.outcomes && p.lastFailure == s.lastFailure
      && (p.sent == s.sent || (s.running.None? && p.running.Some? && p.sent == s.sent + [Sent(p.running.value, now)]))
      && (p.sent != s.sent && s.breaker.state != Closed ==> now >= s.lastFailure + c.openMs)
      && (p.breaker.state == Open ==> p.breaker == s.breaker)
    decreases |s.readQueue| + |s.writeQueue|
  {
    if s.running.None? && s.Waiting() != [] {
      var (job, took) := s.Take();
      assert took.acceptedReads == took.takenReads + took.readQueue;
      assert took.acceptedWrites == took.takenWrites + took.writeQueue;
      if s.breaker.Gate(now).None? {
        PumpIsValid(c, took.(refused := s.refused + [job]), now);
      } else {
        assert Jobs(s.sent + [Sent(job, now)]) == Jobs(s.sent) + [job];
      }
    }
  }

  /** `r` reads and `w` writes have left the queues of `s`, oldest first, and no write while a read was left. */
  predicate TakesFirst(s: WorkerState, p: WorkerState, r: nat, w: nat) {
    && r <= |s.readQueue| && w <= |s.writeQueue|
    && p.readQueue == s.readQueue[r..] && p.takenReads == s.takenReads + s.readQueue[..r]
    && p.writeQueue == s.writeQueue[w..] && p.takenWrites == s.takenWrites + s.writeQueue[..w]
    && (w > 0 ==> r == |s.readQueue|)
  }

  /** Taking one job and then more is taking them all. */
  lemma TakesMore(s: WorkerState, took: WorkerState, p: WorkerState, r: nat, w: nat, r': nat, w': nat)
    requires TakesFirst(s, took, r, w) && TakesFirst(took, p, r', w') && (w > 0 ==> r' == 0)
    ensures TakesFirst(s, p, r + r', w + w')
  {
    TakeMore(s.readQueue, r, r');
    ConcatAssociates(s.takenReads, s.readQueue[..r], s.readQueue[r..][..r']);
    TakeMore(s.writeQueue, w, w');
    ConcatAssociates(s.takenWrites, s.writeQueue[..w], s.writeQueue[w..][..w']);
  }

  /** Order within a pump: what it takes is a prefix of "all reads, then all writes". */
  lemma {:induction false} PumpTakesReadsFirst(s: WorkerState, now: int) returns (r: nat, w: nat)
    ensures TakesFirst(s, s.Pump(now), r, w)
    decreases |s.readQueue| + |s.writeQueue|
  {
    r, w := 0, 0;
    if s.Idle() && s.Waiting() != [] {
      var (job, took) := s.Take();
      if s.readQueue != [] {
        r := 1;
      } else {
        w := 1;
      }
      assert TakesFirst(s, took, r, w);
      if s.breaker.Gate(now).None? {
        var next := took.(refused := s.refused + [job]);
        var r', w' := PumpTakesReadsFirst(next, now);
        TakesMore(s, next, s.Pump(now), r, w, r', w');
        r, w := r + r', w + w';
      }
    }
  }

  /** What a submission queues before it pumps. */
  function Queued(s: WorkerState, lane: Lane, job: nat): WorkerState {
    if lane.Read? then s.(readQueue := s.readQueue + [job], acceptedReads := s.acceptedReads + [job])
    else s.(writeQueue := s.writeQueue + [job], acceptedWrites := s.acceptedWrites + [job])
  }

  lemma QueuedIsAccounted(c: Config, s: WorkerState, lane: Lane, job: nat)
    requires Accounted(c, s) && s.Admits(c, lane)
    ensures Accounted(c, Queued(s, lane, job))
  {
    var q := Queued(s, lane, job);
    assert q.acceptedReads == q.takenReads + q.readQueue;
    assert q.acceptedWrites == q.takenWrites + q.writeQueue;
  }

  lemma EventKeepsValid(c: Config, s: WorkerState, e: Event)
    requires Valid(c, s) && Possible(s, e)
    ensures Valid(c, After(c, s, e))
  {
    match e
    case Submitted(lane, job, now) =>
      if s.Admits(c, lane) {
        QueuedIsAccounted(c, s, lane, job);
        PumpIsValid(c, Queued(s, lane, job), now);
      }
    case Settles(outcome, now) =>
      SettlingIsAccounted(c, s, outcome, now);
      PumpIsValid(c, Settling(c, s, outcome, now), now);
  }

  /** The state after the outcome is recorded and before the lanes are pumped again. */
  function Settling(c: Config, s: WorkerState, outcome: Outcome, now: int): WorkerState
    requires s.running.Some?
  {
    s.(breaker := s.breaker.Record(c, outcome, now), outcomes := s.outcomes + [outcome],
       lastFailure := if outcome.Failure? then now else s.lastFailure, settled := s.settled + [s.running.value], running := None)
  }

  lemma SettlingIsAccounted(c: Config, s: WorkerState, outcome: Outcome, now: int)
    requires Valid(c, s) && s.running.Some?
    ensures Accounted(c, Settling(c, s, outcome, now))
    ensures Settling(c, s, outcome, now).Pump(now) == s.Settle(c, outcome, now)
  {
    var t := Settling(c, s, outcome, now);
    assert t.outcomes[..|t.outcomes| - 1] == s.outcomes;
  }

  function At(e: Event): int { e.now }

  ghost predicate Trace(c: Config, states: seq<WorkerState>, events: seq<Event>) {
    && |states| == |events| + 1 && states[0] == START
    && forall i | 0 <= i < |events| :: Possible(states[i], events[i]) && states[i + 1] == After(c, states[i], events[i])
  }

  /**
    Over every history: each accepted job is taken exactly once, in the order its lane accepted it;
    calls are sent one at a time and each settles at most once; the breaker is not closed exactly when
    the failures since the last success reach the threshold; an idle worker has nothing waiting; and the
    write lane stays within its bound.
   */
  lemma {:induction false} HistoryIsValid(c: Config, states: seq<WorkerState>, events: seq<Event>, i: nat)
    requires Trace(c, states, events) && i < |states|
    ensures Valid(c, states[i])
  {
    if i > 0 {
      HistoryIsValid(c, states, events, i - 1);
      EventKeepsValid(c, states[i - 1], events[i - 1]);
    }
  }

  /** Every job taken from a lane was sent or refused, and as often as it was taken. */
  ghost predicate Dealt(s: WorkerState) {
    multiset(s.takenReads) + multiset(s.takenWrites) == multiset(Jobs(s.sent)) + multiset(s.refused)
  }

  lemma TakenIs(s: WorkerState)
    requires s.Waiting() != []
    ensures var (job, took) := s.Take();
      multiset(took.takenReads) + multiset(took.takenWrites) == multiset(s.takenReads) + multiset(s.takenWrites) + multiset{job}
  {
  }

  lemma {:induction false} PumpDeals(s: WorkerState, now: int)
    requires Dealt(s)
    ensures Dealt(s.Pump(now))
    decreases |s.readQueue| + |s.writeQueue|
  {
    if s.running.None? && s.Waiting() != [] {
      var (job, took) := s.Take();
      TakenIs(s);
      if s.breaker.Gate(now).None? {
        PumpDeals(took.(refused := s.refused + [job]), now);
      } else {
        assert Jobs(s.sent + [Sent(job, now)]) == Jobs(s.sent) + [job];
      }
    }
  }

  /** Over every history no job is lost, doubled or mistaken for another on its way out of its lane. */
  lemma {:induction false} JobsAreDealt(c: Config, states: seq<WorkerState>, events: seq<Event>, i: nat)
    requires Trace(c, states, events) && i < |states|
    ensures Dealt(states[i])
  {
    if i > 0 {
      JobsAreDealt(c, states, events, i - 1);
      var s := states[i - 1];
      match events[i - 1]
      case Submitted(lane, job, now) =>
        if s.Admits(c, lane) {
          PumpDeals(Queued(s, lane, job), now);
        }
      case Settles(outcome, now) => PumpDeals(Settling(c, s, outcome, now), now);
    }
  }

  /** While the breaker is not closed, nothing is sent until `openMs` after the last recorded failure. */
  lemma NothingSentWhileOpen(c: Config, states: seq<WorkerState>, events: seq<Event>, i: nat)
    requires Trace(c, states, events) && i < |events|
    requires |states[i + 1].sent| > |states[i].sent|
    ensures |states[i + 1].sent| == |states[i].sent| + 1
    ensures Trailing(states[i + 1].outcomes) >= Trip(c) ==>
              states[i + 1].sent[|states[i].sent|].at >= states[i + 1].lastFailure + c.openMs
  {
    HistoryIsValid(c, states, events, i);
    var s := states[i];
    match events[i]
    case Submitted(lane, job, now) =>
      if s.Admits(c, lane) {
        QueuedIsAccounted(c, s, lane, job);
        PumpIsValid(c, Queued(s, lane, job), now);
      }
    case Settles(outcome, now) =>
      SettlingIsAccounted(c, s, outcome, now);
      PumpIsValid(c, Settling(c, s, outcome, now), now);
  }

  // ── When a job is sent ─────────────────────────────────────────────────────

  /** The failures recorded since the last success are too few to open the breaker, or its window is over. */
  predicate Reachable(c: Config, outcomes: seq<Outcome>, lastFailure: int, now: int) {
    Trailing(outcomes) < Trip(c) || now >= lastFailure + c.openMs
  }

  /** An idle worker with jobs waiting sends the oldest one, reads first, or refuses them all. */
  lemma {:induction false} PumpSends(c: Config, s: WorkerState, now: int)
    requires Accounted(c, s) && s.running.None? && s.Waiting() != []
    ensures var p := s.Pump(now);
      if Reachable(c, s.outcomes, s.lastFailure, now) then
        && p.sent == s.sent + [Sent(s.Waiting()[0], now)] && p.running == Some(s.Waiting()[0])
        && p.refused == s.refused && p.readQueue + p.writeQueue == s.Waiting()[1..]
      else p.sent == s.sent && p.running.None? && p.refused == s.refused + s.Waiting() && p.Waiting() == []
    decreases |s.readQueue| + |s.writeQueue|
  {
    var (job, took) := s.Take();
    TakeIsOldest(c, s);
    if !Reachable(c, s.outcomes, s.lastFailure, now) {
      var next := took.(refused := s.refused + [job]);
      assert [job] + next.Waiting() == s.Waiting();
      if next.Waiting() == [] {
        assert s.Waiting() == [job];
      } else {
        PumpSends(c, next, now);
        ConcatAssociates(s.refused, [job], next.Waiting());
      }
    }
  }

  lemma TakeIsOldest(c: Config, s: WorkerState)
    requires Accounted(c, s) && s.running.None? && s.Waiting() != []
    ensures var (job, took) := s.Take();
      job == s.Waiting()[0] && took.Waiting() == s.Waiting()[1..] && Accounted(c, took) && Accounted(c, took.(refused := s.refused + [job]))
  {
    var (_, took) := s.Take();
    assert took.acceptedReads == took.takenReads + took.readQueue;
    assert took.acceptedWrites == took.takenWrites + took.writeQueue;
  }

  /** The jobs that wait, reads first, when an event leaves the slot free. */
  function Contenders(c: Config, s: WorkerState, e: Event): seq<nat> {
    match e
    case Submitted(lane, job, _) => if s.running.None? && (lane.Read? || |s.writeQueue| < c.writeLimit) then [job] else []
    case Settles(_, _) => s.readQueue + s.writeQueue
  }

  lemma EventSends(c: Config, s: WorkerState, e: Event)
    requires Valid(c, s) && Possible(s, e)
    ensures var t, jobs := After(c, s, e), Contenders(c, s, e);
      if jobs == [] then t.sent == s.sent && t.refused == s.refused
      else if Reachable(c, t.outcomes, t.lastFailure, At(e)) then
        && t.sent == s.sent + [Sent(jobs[0], At(e))] && t.running == Some(jobs[0])
        && t.refused == s.refused && t.readQueue + t.writeQueue == jobs[1..]
      else t.sent == s.sent && t.running.None? && t.refused == s.refused + jobs
  {
    match e
    case Submitted(lane, job, now) =>
      if Contenders(c, s, e) != [] {
        QueuedIsAccounted(c, s, lane, job);
        PumpSends(c, Queued(s, lane, job), now);
        PumpIsValid(c, Queued(s, lane, job), now);
      }
    case Settles(outcome, now) =>
      SettlingIsAccounted(c, s, outcome, now);
      PumpIsValid(c, Settling(c, s, outcome, now), now);
      if Contenders(c, s, e) != [] {
        PumpSends(c, Settling(c, s, outcome, now), now);
      }
  }

  /** What an event adds to the history. */
  lemma EventRecords(c: Config, s: WorkerState, e: Event)
    requires Valid(c, s) && Possible(s, e)
    ensures var t := After(c, s, e);
      && t.outcomes == (if e.Settles? then s.outcomes + [e.outcome] else s.outcomes)
      && t.lastFailure == (if e.Settles? && e.outcome.Failure? then e.now else s.lastFailure)
      && t.settled == (if e.Settles? then s.settled + [s.running.value] else s.settled)
      && t.acceptedReads == (if e.Submitted? && e.lane.Read? then s.acceptedReads + [e.job] else s.acceptedReads)
      && t.acceptedWrites == (if e.Submitted? && e.lane.Write? && |s.writeQueue| < c.writeLimit then s.acceptedWrites + [e.job] else s.acceptedWrites)
  {
    match e
    case Submitted(lane, job, now) =>
      if s.Admits(c, lane) {
        QueuedIsAccounted(c, s, lane, job);
        PumpIsValid(c, Queued(s, lane, job), now);
        PumpAccepts(Queued(s, lane, job), now);
      }
    case Settles(outcome, now) =>
      SettlingIsAccounted(c, s, outcome, now);
      PumpIsValid(c, Settling(c, s, outcome, now), now);
      PumpAccepts(Settling(c, s, outcome, now), now);
  }

  lemma {:induction false} PumpAccepts(s: WorkerState, now: int)
    ensures s.Pump(now).acceptedReads == s.acceptedReads && s.Pump(now).acceptedWrites == s.acceptedWrites
    decreases |s.readQueue| + |s.writeQueue|
  {
    if s.running.None? && s.Waiting() != [] && s.breaker.Gate(now).None? {
      var (job, took) := s.Take();
      PumpAccepts(took.(refused := s.refused + [job]), now);
    }
  }

  /**
    The other half of the breaker's promise, over every history. Whenever an event leaves the slot free
    with jobs waiting, the oldest of them, reads first, is sent at once, exactly when fewer failures
    than the threshold have followed the last success or openMs have passed since the last failure;
    otherwise, and only then, the waiting jobs are refused.
   */
  lemma SentIff(c: Config, states: seq<WorkerState>, events: seq<Event>, i: nat)
    requires Trace(c, states, events) && i < |events| && Contenders(c, states[i], events[i]) != []
    ensures var t, jobs := states[i + 1], Contenders(c, states[i], events[i]);
      && (t.sent == states[i].sent + [Sent(jobs[0], At(events[i]))] <==> Reachable(c, t.outcomes, t.lastFailure, At(events[i])))
      && (t.refused == states[i].refused + jobs <==> !Reachable(c, t.outcomes, t.lastFailure, At(events[i])))
      && (t.sent == states[i].sent || t.refused == states[i].refused)
  {
    HistoryIsValid(c, states, events, i);
    EventSends(c, states[i], events[i]);
  }

  /** A recorded success closes the breaker at once: the next job is sent, however long the outage was. */
  lemma SuccessReopens(c: Config, states: seq<WorkerState>, events: seq<Event>, i: nat)
    requires Trace(c, states, events) && i < |events| && events[i].Settles? && events[i].outcome.Success?
    requires Contenders(c, states[i], events[i]) != []
    ensures states[i + 1].sent == states[i].sent + [Sent(Contenders(c, states[i], events[i])[0], events[i].now)]
  {
    HistoryIsValid(c, states, events, i);
    EventSends(c, states[i], events[i]);
    EventRecords(c, states[i], events[i]);
  }

  /** A job is refused by the breaker only while it is open: enough failures trail and the window since the last one is not over. */
  lemma RefusedOnlyWhileOpen(c: Config, states: seq<WorkerState>, events: seq<Event>, i: nat)
    requires Trace(c, states, events) && i < |events| && states[i + 1].refused != states[i].refused
    ensures Trailing(states[i + 1].outcomes) >= Trip(c) && At(events[i]) < states[i + 1].lastFailure + c.openMs
  {
    HistoryIsValid(c, states, events, i);
    EventSends(c, states[i], events[i]);
  }

  /** Over every history the recorded outcomes, failures and accepted jobs are exactly those of the events. */
  lemma HistoryRecords(c: Config, states: seq<WorkerState>, events: seq<Event>, i: nat)
    requires Trace(c, states, events) && i < |events|
    ensures var s, t, e := states[i], states[i + 1], events[i];
      && t.outcomes == (if e.Settles? then s.outcomes + [e.outcome] else s.outcomes)
      && t.lastFailure == (if e.Settles? && e.outcome.Failure? then e.now else s.lastFailure)
      && t.acceptedReads == (if e.Submitted? && e.lane.Read? then s.acceptedReads + [e.job] else s.acceptedReads)
      && t.acceptedWrites == (if e.Submitted? && e.lane.Write? && |s.writeQueue| < c.writeLimit then s.acceptedWrites + [e.job] else s.acceptedWrites)
  {
    HistoryIsValid(c, states, events, i);
    EventRecords(c, states[i], events[i]);
  }

  // ── Outages ────────────────────────────────────────────────────────────────

  /**
    From the event `a` that first opens the breaker, up to `b`, every call that settles fails and the
    clock does not run backwards.
   */
  ghost predicate Outage(c: Config, states: seq<WorkerState>, events: seq<Event>, a: nat, b: nat) {
    && Trace(c, states, events) && a < b < |states|
    && states[a].breaker.state == Closed && states[a + 1].breaker.state != Closed
    && (forall k | a <= k < b && events[k].Settles? :: events[k].outcome.Failure?)
    && (forall k | a < k < b :: At(events[k - 1]) <= At(events[k]))
  }

  /** After `n` probes: the next window ends, or the present probe began, at least `n` windows after `t0`. */
  predicate Paced(c: Config, s: WorkerState, t0: int, n: nat, now: int) {
    && s.breaker.state != Closed
    && n * c.openMs <= now - t0
    && (s.breaker.state == Open ==> s.breaker.openUntil >= t0 + (n + 1) * c.openMs)
  }

  lemma PumpIsPaced(c: Config, s: WorkerState, t0: int, n: nat, now: int)
    requires Accounted(c, s) && Paced(c, s, t0, n, now)
    ensures |s.sent| <= |s.Pump(now).sent|
    ensures Paced(c, s.Pump(now), t0, n + (|s.Pump(now).sent| - |s.sent|), now)
  {
    PumpIsValid(c, s, now);
  }

  lemma SubmittingRecordsNothing(c: Config, s: WorkerState, lane: Lane, job: nat, now: int)
    requires Valid(c, s)
    ensures s.Submit(c, lane, job, now).outcomes == s.outcomes
  {
    if s.Admits(c, lane) {
      QueuedIsAccounted(c, s, lane, job);
      PumpIsValid(c, Queued(s, lane, job), now);
    }
  }

  lemma OpeningIsPaced(c: Config, s: WorkerState, e: Event)
    requires Valid(c, s) && Possible(s, e) && s.breaker.state == Closed && After(c, s, e).breaker.state != Closed
    ensures |s.sent| <= |After(c, s, e).sent|
    ensures Paced(c, After(c, s, e), At(e), |After(c, s, e).sent| - |s.sent|, At(e))
  {
    EventKeepsValid(c, s, e);
    match e
    case Submitted(lane, job, now) => SubmittingRecordsNothing(c, s, lane, job, now);
    case Settles(outcome, now) =>
      SettlingIsAccounted(c, s, outcome, now);
      var t := Settling(c, s, outcome, now);
      PumpIsValid(c, t, now);
      PumpIsPaced(c, t, now, 0, now);
  }

  lemma EventIsPaced(c: Config, s: WorkerState, e: Event, t0: int, n: nat, before: int)
    requires Valid(c, s) && Possible(s, e) && (e.Settles? ==> e.outcome.Failure?)
    requires Paced(c, s, t0, n, before) && before <= At(e)
    ensures |s.sent| <= |After(c, s, e).sent|
    ensures Paced(c, After(c, s, e), t0, n + (|After(c, s, e).sent| - |s.sent|), At(e))
  {
    match e
    case Submitted(lane, job, now) =>
      if s.Admits(c, lane) {
        QueuedIsAccounted(c, s, lane, job);
        PumpIsPaced(c, Queued(s, lane, job), t0, n, now);
      }
    case Settles(outcome, now) =>
      SettlingIsAccounted(c, s, outcome, now);
      var t := Settling(c, s, outcome, now);
      assert (n + 1) * c.openMs == n * c.openMs + c.openMs;
      PumpIsPaced(c, t, t0, n, now);
  }

  lemma OutageGoesOn(c: Config, states: seq<WorkerState>, events: seq<Event>, a: nat, b: nat)
    requires Outage(c, states, events, a, b) && b > a + 1
    requires |states[a].sent| <= |states[b - 1].sent|
    requires Paced(c, states[b - 1], At(events[a]), |states[b - 1].sent| - |states[a].sent|, At(events[b - 2]))
    ensures |states[a].sent| <= |states[b].sent|
    ensures Paced(c, states[b], At(events[a]), |states[b].sent| - |states[a].sent|, At(events[b - 1]))
  {
    HistoryIsValid(c, states, events, b - 1);
    EventIsPaced(c, states[b - 1], events[b - 1], At(events[a]), |states[b - 1].sent| - |states[a].sent|, At(events[b - 2]));
  }

  lemma {:induction false} OutageIsPaced(c: Config, states: seq<WorkerState>, events: seq<Event>, a: nat, b: nat)
    requires Outage(c, states, events, a, b)
    ensures |states[a].sent| <= |states[b].sent|
    ensures Paced(c, states[b], At(events[a]), |states[b].sent| - |states[a].sent|, At(events[b - 1]))
    decreases b
  {
    if b == a + 1 {
      HistoryIsValid(c, states, events, a);
      OpeningIsPaced(c, states[a], events[a]);
    } else {
      OutageIsPaced(c, states, events, a, b - 1);
      OutageGoesOn(c, states, events, a, b);
    }
  }

  /**
    The bound on probes: in an outage that has lasted T since the breaker first opened, the worker has
    sent at most T / openMs calls.
   */
  lemma ProbesAreBounded(c: Config, states: seq<WorkerState>, events: seq<Event>, a: nat, b: nat)
    requires Outage(c, states, events, a, b)
    ensures |states[a].sent| <= |states[b].sent|
    ensures (|states[b].sent| - |states[a].sent|) * c.openMs <= At(events[b - 1]) - At(events[a])
  {
    OutageIsPaced(c, states, events, a, b);
  }

  class Worker {
    const config: Config
    var readQueue: seq<nat>
    var writeQueue: seq<nat>
    var running: Option<nat>
    var state: BreakerState
    var consecutiveFailures: nat
    var openUntil: int
    /** The history; its queues, running job and breaker are those of the fields. */
    ghost var past: WorkerState

    ghost function View(): WorkerState
      reads this
    {
      past.(readQueue := readQueue, writeQueue := writeQueue, running := running, breaker := Breaker(state, consecutiveFailures, openUntil))
    }

    constructor (config: Config)
      ensures this.config == config && View() == START
    {
      this.config := config;
      readQueue, writeQueue, running := [], [], None;
      state, consecutiveFailures, openUntil := Closed, 0, 0;
      past := START;
    }

    method SubmitRead(job: nat, now: int)
      modifies this
      ensures View() == old(View()).Submit(config, Read, job, now)
    {
      Submit(Read, job, now);
    }

    method SubmitWrite(job: nat, now: int) returns (accepted: bool)
      modifies this
      ensures accepted <==> |old(writeQueue)| < config.writeLimit
      ensures View() == old(View()).Submit(config, Write, job, now)
    {
      if |writeQueue| >= config.writeLimit {
        return false;
      }
      Submit(Write, job, now);
      accepted := true;
    }

    method Submit(lane: Lane, job: nat, now: int)
      requires View().Admits(config, lane)
      modifies this
      ensures View() == old(View()).Submit(config, lane, job, now)
    {
      match lane {
        case Read =>
          readQueue := readQueue + [job];
          past := past.(acceptedReads := past.acceptedReads + [job]);
        case Write =>
          writeQueue := writeQueue + [job];
          past := past.(acceptedWrites := past.acceptedWrites + [job]);
      }
      Pump(now);
    }

    method NextJob() returns (job: Option<nat>)
      modifies this
      ensures job.None? <==> old(View()).Waiting() == []
      ensures job.None? ==> View() == old(View())
      ensures job.Some? ==> (job.value, View()) == old(View()).Take()
    {
      if readQueue != [] {
        job := Some(readQueue[0]);
        past := past.(takenReads := past.takenReads + [readQueue[0]]);
        readQueue := readQueue[1..];
      } else if writeQueue != [] {
        job := Some(writeQueue[0]);
        past := past.(takenWrites := past.takenWrites + [writeQueue[0]]);
        writeQueue := writeQueue[1..];
      } else {
        job := None;
      }
    }

    method Pump(now: int)
      modifies this
      ensures View() == old(View()).Pump(now)
      decreases |readQueue| + |writeQueue|, 1
    {
      if running.Some? {
        return;
      }
      var job := NextJob();
      if job.Some? {
        running := job;
        RunJob(job.value, now);
      }
    }

    /** The part of runJob before its first await; a refused job releases the slot and pumps again. */
    method RunJob(job: nat, now: int)
      requires running == Some(job)
      modifies this
      ensures var gate := old(View()).breaker.Gate(now);
        View() == if gate.None? then old(View()).(running := None, refused := old(View()).refused + [job]).Pump(now)
                  else old(View()).(breaker := gate.value, sent := old(View()).sent + [Sent(job, now)])
      decreases |readQueue| + |writeQueue| + 1, 0
    {
      var run := BreakerGate(now);
      if !run {
        past := past.(refused := past.refused + [job]);
        running := None;
        assert View() == old(View()).(running := None, refused := old(View()).refused + [job]);
        Pump(now);
        return;
      }
      past := past.(sent := past.sent + [Sent(job, now)]);
    }

    method BreakerGate(now: int) returns (run: bool)
      modifies this`state
      ensures run <==> old(state) != Open || now >= openUntil
      ensures state == if old(state) == Open && now >= openUntil then HalfOpen else old(state)
      ensures run == old(View()).breaker.Gate(now).Some?
      ensures View() == if run then old(View()).(breaker := old(View()).breaker.Gate(now).value) else old(View())
    {
      if state == Open {
        if now >= openUntil {
          state := HalfOpen;
          return true;
        }
        return false;
      }
      run := true;
    }

    /** The dispatched call resolved, rejected or timed out. */
    method Settle(outcome: Outcome, now: int)
      requires running.Some?
      modifies this
      ensures View() == old(View()).Settle(config, outcome, now)
    {
      match outcome {
        case Success => RecordSuccess();
        case Failure => RecordFailure(now);
      }
      past := past.(outcomes := past.outcomes + [outcome], settled := past.settled + [running.value],
                    lastFailure := if outcome.Failure? then now else past.lastFailure);
      running := None;
      assert View() == Settling(config, old(View()), outcome, now);
      Pump(now);
    }

    method RecordSuccess()
      modifies this`state, this`consecutiveFailures
      ensures Breaker(state, consecutiveFailures, openUntil) == old(View()).breaker.Record(config, Success, 0)
    {
      state := Closed;
      consecutiveFailures := 0;
    }

    method RecordFailure(now: int)
      modifies this`state, this`consecutiveFailures, this`openUntil
      ensures Breaker(state, consecutiveFailures, openUntil) == old(View()).breaker.Record(config, Failure, now)
    {
      if state == HalfOpen {
        OpenBreaker(now);
        return;
      }
      consecutiveFailures := consecutiveFailures + 1;
      if consecutiveFailures >= config.threshold {
        OpenBreaker(now);
      }
    }

    method OpenBreaker(now: int)
      modifies this`state, this`openUntil
      ensures state == Open && openUntil == now + config.openMs
    {
      state := Open;
      openUntil := now + config.openMs;
    }
  }
}
