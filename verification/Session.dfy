/**
  packages/agent-client/src/session.ts: lazy, deduplicated sign-in, one retry after an auth failure,
  proactive refresh, and stop().

  A State is the session's fields together with what happens outside it: numbered callers (runs and
  refreshes) that await a sign-in, a worker job or an operation; `air`, the transport sign-ins in
  flight; `results`, the settled doSignIn promises; `armed`, the runtime's timers; and the counts that
  the promises are about. Each operation is a stretch between two awaits.
 */
module Sessions {
  import opened Options

  datatype Verdict = SignedIn | TransportError | DelegationRejected

  datatype Attempt = Fine | AuthFailure | OtherFailure

  /** Where a caller stands; `flight` None means the session was already established. */
  datatype Caller =
    | Ensuring(retry: bool, flight: Option<nat>, owns: bool)
    | Submitted(retry: bool)
    | Invoked(retry: bool)
    | Refreshing(flight: Option<nat>, owns: bool)
    | Finished
  {
    predicate Awaits() { Ensuring? || Refreshing? }

    /** The invocations of its operation that this caller may have behind it. */
    function Budget(): nat {
      match this
      case Ensuring(retry, _, _) => if retry then 1 else 0
      case Submitted(retry) => if retry then 1 else 0
      case Invoked(retry) => if retry then 2 else 1
      case Refreshing(_, _) => 0
      case Finished => 2
    }
  }

  datatype Ensured = Refused | Established | Joined(flight: nat) | Started(flight: nat) {
    predicate Owns() { Started? }
    function Flight(): Option<nat> { if Joined? || Started? then Some(flight) else None }
  }

  datatype State = State(
    proactive: bool,
    established: bool,
    flight: Option<nat>,
    timer: Option<nat>,
    stopped: bool,
    rejected: bool,
    callers: map<nat, Caller>,
    results: map<nat, Verdict>,
    air: set<nat>,
    armed: set<nat>,
    nextFlight: nat,
    nextTimer: nat,
    owner: nat,
    invoked: map<nat, nat>,
    signIns: nat,
    successes: nat,
    notifications: nat)
  {
    /** ensureSignedIn, up to its await: refuse, reuse, join, or start the one sign-in. */
    function Ensure(id: nat): (State, Ensured) {
      if stopped then (this, Refused)
      else if established then (this, Established)
      else if flight.Some? then (this, Joined(flight.value))
      else (this.(flight := Some(nextFlight), nextFlight := nextFlight + 1, air := air + {nextFlight}, owner := id, signIns := signIns + 1),
            Started(nextFlight))
    }

    function Become(id: nat, c: Caller): State { this.(callers := callers[id := c]) }

    function ScheduleRefresh(): State {
      if stopped || !proactive then this
      else this.(timer := Some(nextTimer), nextTimer := nextTimer + 1,
                 armed := (if timer.Some? then armed - {timer.value} else armed) + {nextTimer})
    }

    function HandleRejection(): State {
      this.(timer := None, armed := if timer.Some? then armed - {timer.value} else armed,
            rejected := true, notifications := if rejected then notifications else notifications + 1)
    }

    /** The transport answered: the rest of doSignIn. A success that arrives after stop() counts for nothing. */
    function SignInSettles(f: nat, verdict: Verdict): State {
      var landed := this.(air := air - {f});
      if verdict.SignedIn? && stopped then landed.(results := results[f := TransportError])
      else
        var known := landed.(results := results[f := verdict]);
        match verdict
        case SignedIn => known.(rejected := false, successes := successes + 1).ScheduleRefresh()
        case DelegationRejected => known.HandleRejection()
        case TransportError => known
    }

    /** The await of caller `id` may end. */
    predicate Ready(id: nat) {
      id in callers && callers[id].Awaits() && (callers[id].flight.Some? ==> callers[id].flight.value in results)
    }

    /** The session is usable: the awaited sign-in succeeded and stop() has not been called since. */
    predicate Succeeds(id: nat)
      requires Ready(id)
    {
      !stopped && (callers[id].flight.Some? ==> results[callers[id].flight.value].SignedIn?)
    }

    /** The rest of ensureSignedIn: the owner installs the session and, in any case, clears the flight. */
    function Resume(id: nat): State
      requires Ready(id)
    {
      var c := callers[id];
      this.(established := established || (c.owns && Succeeds(id)), flight := if c.owns then None else flight).Become(id, Finished)
    }

    function Admit(id: nat): State { this.(callers := callers[id := Finished], invoked := invoked[id := 0]) }

    /** Ask for a signed-in session: the caller awaits it, or is rejected because the session has stopped. */
    function Ask(id: nat, refresh: bool, retry: bool): State {
      var (s, r) := Ensure(id);
      s.Become(id, if r.Refused? then Finished
                   else if refresh then Refreshing(r.Flight(), r.Owns())
                   else Ensuring(retry, r.Flight(), r.Owns()))
    }

    /** run(): after stop() it is rejected at once. */
    function Run(id: nat): State { Admit(id).Ask(id, false, false) }

    function Submit(id: nat): State
      requires Ready(id) && callers[id].Ensuring?
    {
      if Succeeds(id) then Resume(id).Become(id, Submitted(callers[id].retry)) else Resume(id)
    }

    /** The worker runs the job: the operation starts, unless the session has stopped meanwhile. */
    function JobRuns(id: nat): State
      requires id in callers && id in invoked && callers[id].Submitted?
    {
      if stopped then Become(id, Finished)
      else this.(invoked := invoked[id := invoked[id] + 1]).Become(id, Invoked(callers[id].retry))
    }

    /** A first auth failure signs in again and retries; a second one, or any other failure, is final. */
    function AttemptEnds(id: nat, attempt: Attempt): State
      requires id in callers && (callers[id].Invoked? || callers[id].Submitted?)
    {
      if !attempt.AuthFailure? || callers[id].retry then Become(id, Finished)
      else Become(id, Finished).(established := false).Ask(id, false, true)
    }

    /** The refresh timer fires: force a new sign-in. */
    function RefreshFires(t: nat, id: nat): State {
      var fired := this.(armed := armed - {t}).Admit(id);
      if stopped then fired else fired.(established := false).Ask(id, true, false)
    }

    /** Only a rejected delegation ends the cadence. */
    function RefreshEnds(id: nat): State
      requires Ready(id) && callers[id].Refreshing?
    {
      var f := callers[id].flight;
      if Succeeds(id) || (f.Some? && results[f.value].DelegationRejected?) then Resume(id) else Resume(id).ScheduleRefresh()
    }

    function Stop(): State {
      this.(stopped := true, timer := None, armed := if timer.Some? then armed - {timer.value} else armed)
    }

    /** At most one transport sign-in is in flight, the one that `flight` names; only its owner clears it. */
    ghost predicate FlightsValid() {
      && (forall f | f in air :: flight == Some(f) && f !in results)
      && (flight.Some? ==> flight.value < nextFlight)
      && (forall f | f in results :: f < nextFlight)
      && (forall id | id in callers && callers[id].Awaits() && callers[id].owns :: callers[id].flight == flight && flight.Some? && owner == id)
    }

    ghost predicate BudgetsValid() {
      invoked.Keys == callers.Keys && forall id | id in callers :: invoked[id] <= callers[id].Budget()
    }

    /** At most one refresh timer is armed, and none after stop(). */
    ghost predicate TimersValid() {
      && (forall t | t in armed :: timer == Some(t))
      && (timer.Some? ==> timer.value < nextTimer)
      && (stopped ==> timer.None?)
    }

    ghost predicate Valid() {
      && FlightsValid() && BudgetsValid() && TimersValid()
      && notifications <= successes + (if rejected then 1 else 0)
    }
  }

  datatype Event =
    | Runs(id: nat)
    | Settles(f: nat, verdict: Verdict)
    | Submits(id: nat)
    | Starts(id: nat)
    | Ends(id: nat, attempt: Attempt)
    | Fires(t: nat, id: nat)
    | Refreshed(id: nat)
    | Stops

  predicate Possible(s: State, e: Event) {
    match e
    case Runs(id) => id !in s.callers
    case Settles(f, _) => f in s.air
    case Submits(id) => s.Ready(id) && s.callers[id].Ensuring?
    case Starts(id) => id in s.callers && id in s.invoked && s.callers[id].Submitted?
    case Ends(id, _) => id in s.callers && (s.callers[id].Invoked? || s.callers[id].Submitted?)
    case Fires(t, id) => t in s.armed && id !in s.callers
    case Refreshed(id) => s.Ready(id) && s.callers[id].Refreshing?
    case Stops => true
  }

  function After(s: State, e: Event): State
    requires Possible(s, e)
  {
    match e
    case Runs(id) => s.Run(id)
    case Settles(f, verdict) => s.SignInSettles(f, verdict)
    case Submits(id) => s.Submit(id)
    case Starts(id) => s.JobRuns(id)
    case Ends(id, attempt) => s.AttemptEnds(id, attempt)
    case Fires(t, id) => s.RefreshFires(t, id)
    case Refreshed(id) => s.RefreshEnds(id)
    case Stops => s.Stop()
  }

  function Begin(proactive: bool): State {
    State(proactive, false, None, None, false, false, map[], map[], {}, {}, 0, 0, 0, map[], 0, 0, 0)
  }

  /** Moving a caller keeps the invariant if its new state is within its budget and owns only what it started. */
  lemma BecomeKeepsValid(s: State, id: nat, c: Caller)
    requires s.Valid() && id in s.callers && s.invoked[id] <= c.Budget()
    requires c.Awaits() && c.owns ==> c.flight == s.flight && s.flight.Some? && s.owner == id
    ensures s.Become(id, c).Valid()
  {
  }

  lemma EnsureKeepsValid(s: State, id: nat)
    requires s.Valid()
    ensures var (t, r) := s.Ensure(id);
      && t.Valid() && t.callers == s.callers && t.invoked == s.invoked && t.armed == s.armed
      && (r.Owns() ==> r.Flight() == t.flight && t.owner == id && t.signIns == s.signIns + 1 && s.air == {})
      && (!r.Owns() ==> t == s)
      && (s.stopped ==> r.Refused?)
  {
    if !s.stopped && !s.established && s.flight.None? {
      var t := s.Ensure(id).0;
      assert forall other | other in s.callers && s.callers[other].Awaits() :: !s.callers[other].owns;
    }
  }

  lemma ScheduleKeepsValid(s: State)
    requires s.Valid()
    ensures s.ScheduleRefresh().Valid()
  {
  }

  lemma ResumeKeepsValid(s: State, id: nat)
    requires s.Valid() && s.Ready(id)
    ensures s.Resume(id).Valid() && s.Resume(id).invoked == s.invoked && s.Resume(id).signIns == s.signIns
    ensures s.callers[id].Ensuring? ==> s.invoked[id] <= (if s.callers[id].retry then 1 else 0)
  {
    var t := s.Resume(id);
    assert s.callers[id].owns ==> s.flight.value !in s.air && s.air == {};
    forall other | other in t.callers && t.callers[other].Awaits() && t.callers[other].owns
      ensures t.callers[other].flight == t.flight && t.flight.Some? && t.owner == other
    {
      assert other != id && s.owner == other;
    }
  }

  lemma SignedInKeepsValid(s: State, f: nat)
    requires s.Valid() && s.air == {f}
    ensures s.SignInSettles(f, SignedIn).Valid()
    ensures var t := s.SignInSettles(f, SignedIn); t.callers == s.callers && t.invoked == s.invoked && t.signIns == s.signIns && t.air == {}
  {
  }

  lemma RejectedKeepsValid(s: State, f: nat)
    requires s.Valid() && s.air == {f}
    ensures s.SignInSettles(f, DelegationRejected).Valid()
    ensures var t := s.SignInSettles(f, DelegationRejected); t.callers == s.callers && t.invoked == s.invoked && t.signIns == s.signIns && t.air == {}
  {
  }

  lemma SettlesKeepsValid(s: State, f: nat, verdict: Verdict)
    requires s.Valid() && f in s.air
    ensures s.SignInSettles(f, verdict).Valid()
    ensures var t := s.SignInSettles(f, verdict); t.callers == s.callers && t.invoked == s.invoked && t.signIns == s.signIns && t.air == {}
  {
    assert s.air == {f};
    match verdict
    case SignedIn => SignedInKeepsValid(s, f);
    case DelegationRejected => RejectedKeepsValid(s, f);
    case TransportError =>
  }

  lemma AskKeepsValid(s: State, id: nat, refresh: bool, retry: bool)
    requires s.Valid() && id in s.callers && s.callers[id].Finished?
    requires s.invoked[id] <= (if retry && !refresh then 1 else 0)
    ensures s.Ask(id, refresh, retry).Valid()
  {
    EnsureKeepsValid(s, id);
    var (t, r) := s.Ensure(id);
    BecomeKeepsValid(t, id, if r.Refused? then Finished
                            else if refresh then Refreshing(r.Flight(), r.Owns())
                            else Ensuring(retry, r.Flight(), r.Owns()));
  }

  lemma AdmitKeepsValid(s: State, id: nat)
    requires s.Valid() && id !in s.callers
    ensures s.Admit(id).Valid()
  {
  }

  lemma SubmitKeepsValid(s: State, id: nat)
    requires s.Valid() && s.Ready(id) && s.callers[id].Ensuring?
    ensures s.Submit(id).Valid()
  {
    ResumeKeepsValid(s, id);
    if s.Succeeds(id) {
      BecomeKeepsValid(s.Resume(id), id, Submitted(s.callers[id].retry));
    }
  }

  lemma JobKeepsValid(s: State, id: nat)
    requires s.Valid() && id in s.callers && s.callers[id].Submitted?
    ensures s.JobRuns(id).Valid()
  {
  }

  lemma EndsKeepsValid(s: State, id: nat, attempt: Attempt)
    requires s.Valid() && id in s.callers && (s.callers[id].Invoked? || s.callers[id].Submitted?)
    ensures s.AttemptEnds(id, attempt).Valid()
  {
    BecomeKeepsValid(s, id, Finished);
    if attempt.AuthFailure? && !s.callers[id].retry {
      AskKeepsValid(s.Become(id, Finished).(established := false), id, false, true);
    }
  }

  lemma FiresKeepsValid(s: State, t: nat, id: nat)
    requires s.Valid() && t in s.armed && id !in s.callers
    ensures s.RefreshFires(t, id).Valid()
  {
    var fired := s.(armed := s.armed - {t});
    AdmitKeepsValid(fired, id);
    if !s.stopped {
      AskKeepsValid(fired.Admit(id).(established := false), id, true, false);
    }
  }

  lemma EventKeepsValid(s: State, e: Event)
    requires s.Valid() && Possible(s, e)
    ensures After(s, e).Valid()
  {
    match e
    case Runs(id) =>
      AdmitKeepsValid(s, id);
      AskKeepsValid(s.Admit(id), id, false, false);
    case Settles(f, verdict) => SettlesKeepsValid(s, f, verdict);
    case Submits(id) => SubmitKeepsValid(s, id);
    case Starts(id) => JobKeepsValid(s, id);
    case Ends(id, attempt) => EndsKeepsValid(s, id, attempt);
    case Fires(t, id) => FiresKeepsValid(s, t, id);
    case Refreshed(id) =>
      ResumeKeepsValid(s, id);
      ScheduleKeepsValid(s.Resume(id));
    case Stops =>
  }

  /** No sign-in starts and no operation is invoked in this event. */
  predicate NothingStarts(s: State, t: State) {
    t.signIns == s.signIns && forall id | id in s.invoked :: id in t.invoked && t.invoked[id] == s.invoked[id]
  }

  lemma StoppedRunsNothing(s: State, id: nat)
    requires s.Valid() && s.stopped && id !in s.callers
    ensures s.Run(id).stopped && NothingStarts(s, s.Run(id))
  {
  }

  lemma StoppedRetriesNothing(s: State, id: nat, attempt: Attempt)
    requires s.Valid() && s.stopped && Possible(s, Ends(id, attempt))
    ensures s.AttemptEnds(id, attempt).stopped && NothingStarts(s, s.AttemptEnds(id, attempt))
  {
  }

  lemma StoppedAsksNothing(s: State, e: Event)
    requires s.Valid() && Possible(s, e) && s.stopped && (e.Runs? || e.Ends? || e.Fires?)
    ensures After(s, e).stopped && NothingStarts(s, After(s, e))
  {
    match e
    case Runs(id) => StoppedRunsNothing(s, id);
    case Ends(id, attempt) => StoppedRetriesNothing(s, id, attempt);
    case Fires(_, _) => assert false; // no timer is armed any more
  }

  lemma StoppedResumesNothing(s: State, e: Event)
    requires s.Valid() && Possible(s, e) && s.stopped && (e.Submits? || e.Refreshed?)
    ensures After(s, e).stopped && NothingStarts(s, After(s, e))
  {
    ResumeKeepsValid(s, e.id);
  }

  lemma StoppedStartsNothing(s: State, e: Event)
    requires s.Valid() && Possible(s, e) && s.stopped
    ensures After(s, e).stopped && NothingStarts(s, After(s, e))
  {
    if e.Submits? || e.Refreshed? {
      StoppedResumesNothing(s, e);
    } else if e.Runs? || e.Ends? || e.Fires? {
      StoppedAsksNothing(s, e);
    }
  }

  ghost predicate Trace(states: seq<State>, events: seq<Event>) {
    && |states| == |events| + 1
    && (exists proactive :: states[0] == Begin(proactive))
    && forall i {:trigger events[i]} | 0 <= i < |events| :: Possible(states[i], events[i]) && states[i + 1] == After(states[i], events[i])
  }

  lemma {:induction false} TraceIsValid(states: seq<State>, events: seq<Event>, i: nat)
    requires Trace(states, events) && i < |states|
    ensures states[i].Valid()
  {
    if i == 0 {
      var proactive :| states[0] == Begin(proactive);
    } else {
      TraceIsValid(states, events, i - 1);
      EventKeepsValid(states[i - 1], events[i - 1]);
    }
  }

  /**
    Over all interleavings: at most one transport sign-in is in flight; every caller's operation is
    invoked at most twice; the host is told of a rejection at most once more than sign-ins succeed;
    and after stop() no refresh timer is armed.
   */
  lemma LifecycleBounds(states: seq<State>, events: seq<Event>, i: nat)
    requires Trace(states, events) && i < |states|
    ensures var s := states[i];
      && (forall f, g | f in s.air && g in s.air :: f == g)
      && (forall id | id in s.callers :: id in s.invoked && s.invoked[id] <= 2)
      && s.notifications <= s.successes + 1
      && (forall t, u | t in s.armed && u in s.armed :: t == u)
      && (s.stopped ==> s.armed == {})
  {
    TraceIsValid(states, events, i);
  }

  lemma NothingStartsFurther(a: State, b: State, c: State)
    requires NothingStarts(a, b) && NothingStarts(b, c)
    ensures NothingStarts(a, c)
  {
  }

  lemma StoppedGoesOn(states: seq<State>, events: seq<Event>, i: nat)
    requires Trace(states, events) && i < |events| && states[i].stopped
    ensures states[i + 1].stopped && NothingStarts(states[i], states[i + 1])
  {
    TraceIsValid(states, events, i);
    StoppedStartsNothing(states[i], events[i]);
  }

  /** After stop() no sign-in and no operation ever starts again. */
  lemma {:induction false} StopIsFinal(states: seq<State>, events: seq<Event>, i: nat, j: nat)
    requires Trace(states, events) && i <= j < |states| && states[i].stopped
    ensures states[j].stopped && NothingStarts(states[i], states[j])
    decreases j
  {
    if i < j {
      StopIsFinal(states, events, i, j - 1);
      StoppedGoesOn(states, events, j - 1);
      NothingStartsFurther(states[i], states[j - 1], states[j]);
    }
  }

  // ── When things happen ─────────────────────────────────────────────────────

  /** A first attempt ended in an auth failure. */
  predicate Rejoins(s: State, e: Event)
    requires Possible(s, e)
  {
    e.Ends? && e.attempt.AuthFailure? && !s.callers[e.id].retry
  }

  /** The events in which somebody may ask for a sign-in. */
  predicate Asks(e: Event) { e.Runs? || e.Ends? || e.Fires? }

  /** Asking for a sign-in is about the asker alone, who waits unless the session has stopped. */
  lemma AskFrame(s: State, id: nat, refresh: bool, retry: bool)
    ensures var t := s.Ask(id, refresh, retry);
      && t.callers == s.callers[id := t.callers[id]] && t.invoked == s.invoked
      && t.nextTimer == s.nextTimer && t.armed == s.armed && t.timer == s.timer && t.stopped == s.stopped
      && t.notifications == s.notifications && t.rejected == s.rejected
      && (t.callers[id].Ensuring? <==> !s.stopped && !refresh)
      && (t.callers[id].Ensuring? ==> t.callers[id].retry == retry && (t.callers[id].flight.Some? <==> !s.established))
  {
  }

  /** Nobody else starts a sign-in, arms a timer without reason or tells the host anything. */
  lemma AskingIs(s: State, e: Event)
    requires Possible(s, e) && Asks(e)
    ensures After(s, e).nextTimer == s.nextTimer && After(s, e).armed <= s.armed && After(s, e).stopped == s.stopped
    ensures After(s, e).notifications == s.notifications && After(s, e).rejected == s.rejected
  {
    match e
    case Runs(id) => AskFrame(s.Admit(id), id, false, false);
    case Ends(id, _) => AskFrame(s.Become(id, Finished).(established := false), id, false, true);
    case Fires(t, id) => AskFrame(s.(armed := s.armed - {t}).Admit(id).(established := false), id, true, false);
  }

  lemma OthersAskNothing(s: State, e: Event)
    requires Possible(s, e) && !Asks(e)
    ensures After(s, e).signIns == s.signIns
  {
    match e
    case Settles(f, verdict) =>
    case Submits(id) =>
    case Starts(id) =>
    case Refreshed(id) =>
    case Stops =>
  }

  lemma AskerStarts(s: State, e: Event)
    requires Possible(s, e) && Asks(e)
    ensures After(s, e).signIns == s.signIns + 1 <==>
              !s.stopped && s.flight.None? && ((e.Runs? && !s.established) || Rejoins(s, e) || e.Fires?)
    ensures After(s, e).signIns == s.signIns + 1 || After(s, e).signIns == s.signIns
    ensures After(s, e).signIns == s.signIns + 1 ==> After(s, e).air == s.air + {s.nextFlight} && After(s, e).flight == Some(s.nextFlight)
  {
    match e
    case Runs(id) =>
    case Ends(id, attempt) =>
    case Fires(t, id) =>
  }

  /**
    A transport sign-in starts exactly when none is in flight, the session has not stopped, and a run finds
    it not established, a first attempt ended in an auth failure, or the refresh timer fired.
   */
  lemma SignInStartsIff(s: State, e: Event)
    requires Possible(s, e)
    ensures After(s, e).signIns == s.signIns + 1 <==>
              !s.stopped && s.flight.None? && ((e.Runs? && !s.established) || Rejoins(s, e) || e.Fires?)
    ensures After(s, e).signIns == s.signIns + 1 || After(s, e).signIns == s.signIns
    ensures After(s, e).signIns == s.signIns + 1 ==> After(s, e).air == s.air + {s.nextFlight} && After(s, e).flight == Some(s.nextFlight)
  {
    if Asks(e) {
      AskerStarts(s, e);
    } else {
      OthersAskNothing(s, e);
    }
  }

  /** A caller that started the sign-in it awaits resumes here. */
  predicate OwnerResumes(s: State, e: Event)
    requires Possible(s, e)
  {
    (e.Submits? || e.Refreshed?) && s.callers[e.id].owns
  }

  lemma AskerFlies(s: State, e: Event)
    requires Possible(s, e) && Asks(e)
    ensures After(s, e).flight == if After(s, e).signIns == s.signIns + 1 then Some(s.nextFlight) else s.flight
  {
    match e
    case Runs(id) =>
    case Ends(id, attempt) =>
    case Fires(t, id) =>
  }

  lemma OthersFly(s: State, e: Event)
    requires Possible(s, e) && !Asks(e)
    ensures After(s, e).flight == if OwnerResumes(s, e) then None else s.flight
  {
    match e
    case Settles(f, verdict) =>
    case Submits(id) =>
    case Starts(id) =>
    case Refreshed(id) =>
    case Stops =>
  }

  /** The sign-in that others join is the one started last, until the caller that started it resumes, however it ended. */
  lemma FlightIff(s: State, e: Event)
    requires Possible(s, e)
    ensures After(s, e).flight ==
              if After(s, e).signIns == s.signIns + 1 then Some(s.nextFlight) else if OwnerResumes(s, e) then None else s.flight
  {
    if Asks(e) {
      AskerFlies(s, e);
    } else {
      OthersFly(s, e);
      OthersAskNothing(s, e);
    }
  }

  /** The caller that awaits here started the sign-in it awaits, which succeeded, and the session has not stopped. */
  predicate Installs(s: State, e: Event)
    requires Possible(s, e)
  {
    && (e.Submits? || e.Refreshed?) && !s.stopped && s.callers[e.id].owns
    && (s.callers[e.id].flight.Some? ==> s.results[s.callers[e.id].flight.value].SignedIn?)
  }

  lemma ResumesEstablished(s: State, e: Event)
    requires Possible(s, e) && (e.Submits? || e.Refreshed?)
    ensures After(s, e).established <==> Installs(s, e) || s.established
  {
    match e
    case Submits(id) =>
    case Refreshed(id) =>
  }

  lemma AskingUnsettles(s: State, e: Event)
    requires Possible(s, e) && Asks(e)
    ensures e.Fires? ==> !s.stopped || After(s, e).established == s.established
    ensures !e.Fires? || !s.stopped ==> After(s, e).established == (s.established && !Rejoins(s, e) && !e.Fires?)
  {
    match e
    case Runs(id) =>
    case Ends(id, attempt) =>
    case Fires(t, id) =>
  }

  /** The session becomes established exactly when the owner of a successful sign-in resumes, and stops being so at an auth failure or a refresh. */
  lemma EstablishedIff(s: State, e: Event)
    requires s.Valid() && Possible(s, e)
    ensures After(s, e).established <==> Installs(s, e) || (s.established && !Rejoins(s, e) && !e.Fires?)
    ensures Installs(s, e) ==> s.callers[e.id].flight.Some?
  {
    match e
    case Submits(_) => ResumesEstablished(s, e);
    case Refreshed(_) => ResumesEstablished(s, e);
    case Runs(_) => AskingUnsettles(s, e);
    case Ends(_, _) => AskingUnsettles(s, e);
    case Fires(_, _) => AskingUnsettles(s, e);
    case _ =>
  }

  /** A job is submitted exactly when the sign-in that its caller awaits succeeded, if there was one, and the session has not stopped. */
  lemma SubmittedIff(s: State, id: nat)
    requires Possible(s, Submits(id))
    ensures var c := s.callers[id];
      After(s, Submits(id)).callers[id] == Submitted(c.retry) <==> !s.stopped && (c.flight.Some? ==> s.results[c.flight.value].SignedIn?)
  {
  }

  /** An event about this caller. */
  predicate About(e: Event, id: nat) { !e.Settles? && !e.Stops? && e.id == id }

  lemma AskerFrame(s: State, e: Event, id: nat)
    requires Possible(s, e) && id in s.callers && id in s.invoked && Asks(e) && e.id != id
    ensures id in After(s, e).callers && id in After(s, e).invoked
    ensures After(s, e).callers[id] == s.callers[id] && After(s, e).invoked[id] == s.invoked[id]
  {
    match e
    case Runs(asker) => AskFrame(s.Admit(asker), asker, false, false);
    case Ends(asker, _) => AskFrame(s.Become(asker, Finished).(established := false), asker, false, true);
    case Fires(t, asker) => AskFrame(s.(armed := s.armed - {t}).Admit(asker).(established := false), asker, true, false);
  }

  lemma CallerFrame(s: State, e: Event, id: nat)
    requires Possible(s, e) && id in s.callers && id in s.invoked && !About(e, id)
    ensures id in After(s, e).callers && id in After(s, e).invoked
    ensures After(s, e).callers[id] == s.callers[id] && After(s, e).invoked[id] == s.invoked[id]
  {
    if Asks(e) {
      AskerFrame(s, e, id);
    } else {
      match e
      case Settles(f, verdict) =>
      case Submits(_) =>
      case Starts(_) =>
      case Refreshed(_) =>
      case Stops =>
    }
  }

  /** An operation is invoked exactly when the worker runs its job and the session has not stopped. */
  lemma InvokedIff(s: State, e: Event, id: nat)
    requires Possible(s, e) && id in s.callers && id in s.invoked
    ensures id in After(s, e).invoked
    ensures After(s, e).invoked[id] == s.invoked[id] + 1 <==> e == Starts(id) && !s.stopped
  {
    if About(e, id) {
      match e
      case Ends(_, attempt) =>
      case _ =>
    } else {
      CallerFrame(s, e, id);
    }
  }

  lemma OwnEndRetries(s: State, id: nat, attempt: Attempt)
    requires Possible(s, Ends(id, attempt))
    ensures var t := After(s, Ends(id, attempt));
      && id in t.callers
      && (t.callers[id].Ensuring? <==> attempt.AuthFailure? && !s.callers[id].retry && !s.stopped)
      && (t.callers[id].Ensuring? ==> t.callers[id].retry && t.callers[id].flight.Some?)
  {
    AskFrame(s.Become(id, Finished).(established := false), id, false, true);
  }

  /** It is tried again, after a new sign-in, exactly when its first attempt ended in an auth failure and the session has not stopped. */
  lemma RetriesIff(s: State, e: Event, id: nat)
    requires Possible(s, e) && id in s.callers && id in s.invoked && (s.callers[id].Invoked? || s.callers[id].Submitted?)
    ensures id in After(s, e).callers
    ensures After(s, e).callers[id].Ensuring? <==> e == Ends(id, AuthFailure) && !s.callers[id].retry && !s.stopped
    ensures After(s, e).callers[id].Ensuring? ==> After(s, e).callers[id].retry && After(s, e).callers[id].flight.Some?
  {
    if !About(e, id) {
      CallerFrame(s, e, id);
    } else if e.Ends? {
      OwnEndRetries(s, id, e.attempt);
    }
  }

  lemma ResultArms(s: State, e: Event)
    requires s.Valid() && Possible(s, e) && (e.Settles? || e.Refreshed?)
    ensures s.nextTimer in After(s, e).armed <==>
              && s.proactive && !s.stopped
              && ((e.Settles? && e.verdict.SignedIn?)
                  || (e.Refreshed? && s.callers[e.id].flight.Some? && s.results[s.callers[e.id].flight.value].TransportError?))
    ensures s.nextTimer in After(s, e).armed ==> After(s, e).armed == {s.nextTimer} && After(s, e).timer == Some(s.nextTimer)
  {
    match e
    case Settles(f, verdict) =>
    case Refreshed(id) =>
  }

  /** The refresh timer is armed anew exactly when a sign-in succeeded, or a refresh failed for another reason than its delegation. */
  lemma ArmsIff(s: State, e: Event)
    requires s.Valid() && Possible(s, e)
    ensures s.nextTimer in After(s, e).armed <==>
              && s.proactive && !s.stopped
              && ((e.Settles? && e.verdict.SignedIn?)
                  || (e.Refreshed? && s.callers[e.id].flight.Some? && s.results[s.callers[e.id].flight.value].TransportError?))
    ensures s.nextTimer in After(s, e).armed ==> After(s, e).armed == {s.nextTimer} && After(s, e).timer == Some(s.nextTimer)
  {
    assert s.nextTimer !in s.armed;
    if e.Settles? || e.Refreshed? {
      ResultArms(s, e);
    } else if Asks(e) {
      AskingIs(s, e);
    }
  }

  /** The host is told exactly when a delegation is rejected that it has not been told of since the last success. */
  lemma NotifiesIff(s: State, e: Event)
    requires Possible(s, e)
    ensures After(s, e).notifications == s.notifications + 1 <==> e.Settles? && e.verdict.DelegationRejected? && !s.rejected
    ensures After(s, e).rejected <==> (e.Settles? && e.verdict.DelegationRejected?) || (s.rejected && !(e.Settles? && e.verdict.SignedIn? && !s.stopped))
  {
    if Asks(e) {
      AskingIs(s, e);
    } else {
      match e
      case Settles(f, verdict) =>
      case Submits(id) =>
      case Starts(id) =>
      case Refreshed(id) =>
      case Stops =>
    }
  }

  class Session {
    const proactiveRefresh: bool
    var established: bool
    var signInInFlight: Option<nat>
    var refreshTimer: Option<nat>
    var stopped: bool
    var delegationRejected: bool
    /** Names for the promises and timers that the session creates. */
    var nextFlight: nat
    var nextTimer: nat
    /** The callers, the transport, the runtime's timers and the counts around the session. */
    ghost var around: State

    ghost function View(): State
      reads this
    {
      around.(proactive := proactiveRefresh, established := established, flight := signInInFlight, timer := refreshTimer,
              stopped := stopped, rejected := delegationRejected, nextFlight := nextFlight, nextTimer := nextTimer)
    }

    constructor (proactiveRefresh: bool)
      ensures View() == Begin(proactiveRefresh)
    {
      this.proactiveRefresh := proactiveRefresh;
      established, signInInFlight, refreshTimer, stopped, delegationRejected := false, None, None, false, false;
      nextFlight, nextTimer := 0, 0;
      around := Begin(proactiveRefresh);
    }

    method EnsureSignedIn(ghost id: nat) returns (r: Ensured)
      modifies this`signInInFlight, this`nextFlight, this`around
      ensures (View(), r) == old(View()).Ensure(id)
    {
      if stopped {
        return Refused;
      }
      if established {
        return Established;
      }
      if signInInFlight.Some? {
        return Joined(signInInFlight.value);
      }
      r := Started(nextFlight);
      around := around.(air := around.air + {nextFlight}, owner := id, signIns := around.signIns + 1);
      signInInFlight := Some(nextFlight);
      nextFlight := nextFlight + 1;
    }

    method ScheduleRefresh()
      modifies this`refreshTimer, this`nextTimer, this`around
      ensures View() == old(View()).ScheduleRefresh()
    {
      if stopped || !proactiveRefresh {
        return;
      }
      if refreshTimer.Some? {
        around := around.(armed := around.armed - {refreshTimer.value});
      }
      refreshTimer := Some(nextTimer);
      around := around.(armed := around.armed + {nextTimer});
      nextTimer := nextTimer + 1;
    }

    method HandleDelegationRejected()
      modifies this`refreshTimer, this`delegationRejected, this`around
      ensures View() == old(View()).HandleRejection()
    {
      if refreshTimer.Some? {
        around := around.(armed := around.armed - {refreshTimer.value});
        refreshTimer := None;
      }
      if delegationRejected {
        return;
      }
      delegationRejected := true;
      around := around.(notifications := around.notifications + 1);
    }

    method SignInSettles(f: nat, verdict: Verdict)
      modifies this
      ensures View() == old(View()).SignInSettles(f, verdict)
    {
      around := around.(air := around.air - {f},
                        results := around.results[f := if verdict.SignedIn? && stopped then TransportError else verdict]);
      if verdict.SignedIn? && stopped {
        return;
      }
      match verdict {
        case SignedIn =>
          delegationRejected := false;
          around := around.(successes := around.successes + 1);
          ScheduleRefresh();
        case DelegationRejected => HandleDelegationRejected();
        case TransportError =>
      }
    }

    method Resume(ghost id: nat, owns: bool, answer: Option<Verdict>) returns (ok: bool)
      requires View().Ready(id) && owns == View().callers[id].owns
      requires answer == if View().callers[id].flight.Some? then Some(View().results[View().callers[id].flight.value]) else None
      modifies this`established, this`signInInFlight, this`around
      ensures View() == old(View()).Resume(id) && ok == old(View()).Succeeds(id)
    {
      ok := !stopped && (answer.Some? ==> answer.value.SignedIn?);
      if owns {
        if ok {
          established := true;
        }
        signInInFlight := None;
      }
      around := around.Become(id, Finished);
    }

    /** The start of run(). */
    method Run(ghost id: nat)
      modifies this`signInInFlight, this`nextFlight, this`around
      ensures View() == old(View()).Run(id)
    {
      around := around.Admit(id);
      var r := EnsureSignedIn(id);
      around := around.Become(id, if r.Refused? then Finished else Ensuring(false, r.Flight(), r.Owns()));
    }

    /** The job that submit() hands to the worker. */
    method JobRuns(ghost id: nat) returns (starts: bool)
      requires id in View().callers && id in View().invoked && View().callers[id].Submitted?
      modifies this`around
      ensures starts == !stopped && View() == old(View()).JobRuns(id)
    {
      starts := !stopped;
      around := View().JobRuns(id);
    }

    /** runWithAuthRetry after an attempt. */
    method AttemptEnds(ghost id: nat, attempt: Attempt, retried: bool)
      requires id in View().callers && (View().callers[id].Invoked? || View().callers[id].Submitted?)
      requires retried == View().callers[id].retry
      modifies this`established, this`signInInFlight, this`nextFlight, this`around
      ensures View() == old(View()).AttemptEnds(id, attempt)
    {
      around := around.Become(id, Finished);
      if !attempt.AuthFailure? || retried {
        return;
      }
      established := false;
      var r := EnsureSignedIn(id);
      around := around.Become(id, if r.Refused? then Finished else Ensuring(true, r.Flight(), r.Owns()));
    }

    /** doProactiveRefresh, up to its await. */
    method RefreshFires(t: nat, ghost id: nat)
      modifies this`established, this`signInInFlight, this`nextFlight, this`around
      ensures View() == old(View()).RefreshFires(t, id)
    {
      around := around.(armed := around.armed - {t}).Admit(id);
      if stopped {
        return;
      }
      established := false;
      var r := EnsureSignedIn(id);
      around := around.Become(id, if r.Refused? then Finished else Refreshing(r.Flight(), r.Owns()));
    }

    method RefreshEnds(ghost id: nat, owns: bool, answer: Option<Verdict>)
      requires View().Ready(id) && View().callers[id].Refreshing? && owns == View().callers[id].owns
      requires answer == if View().callers[id].flight.Some? then Some(View().results[View().callers[id].flight.value]) else None
      modifies this
      ensures View() == old(View()).RefreshEnds(id)
    {
      var ok := Resume(id, owns, answer);
      if !ok && answer != Some(DelegationRejected) {
        ScheduleRefresh();
      }
    }

    method Stop()
      modifies this`stopped, this`refreshTimer, this`around
      ensures View() == old(View()).Stop()
    {
      stopped := true;
      if refreshTimer.Some? {
        around := around.(armed := around.armed - {refreshTimer.value});
        refreshTimer := None;
      }
    }
  }
}
