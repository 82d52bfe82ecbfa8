/**
  packages/eliza-plugin-memory/src/write-lane.ts: the process-wide write lane. Jobs are numbers, each
  submitted once; running a job is the environment's part, and Finish is its settlement.
 */
module WriteLanes {
  import opened Numbers

  datatype Answer = Started | Waiting | Overflow

  class WriteLane {
    const concurrency: int
    const maxQueueDepth: int
    var inFlight: int
    var queue: seq<nat>
    /** History: every job admitted, every job started, and the started jobs that have not settled. */
    ghost var admitted: seq<nat>
    ghost var started: seq<nat>
    ghost var active: multiset<nat>

    /**
      Jobs start in the order they were admitted, each exactly once; the counter counts the unsettled
      ones; the queue is bounded; and a job waits only while every slot is taken.
     */
    ghost predicate Valid()
      reads this
    {
      && admitted == started + queue
      && inFlight == |active|
      && active <= multiset(started)
      && |queue| <= Max(0, maxQueueDepth)
      && (queue != [] ==> inFlight >= concurrency)
      && inFlight <= Max(0, concurrency)
    }

    constructor (concurrency: int, maxQueueDepth: int)
      ensures Valid() && this.concurrency == concurrency && this.maxQueueDepth == maxQueueDepth && admitted == []
    {
      this.concurrency, this.maxQueueDepth := concurrency, maxQueueDepth;
      inFlight, queue := 0, [];
      admitted, started, active := [], [], multiset{};
    }

    /** execute(), up to the first await of the job. */
    method Execute(job: nat)
      modifies this`started, this`active
      ensures started == old(started) + [job] && active == old(active) + multiset{job}
    {
      started := started + [job];
      active := active + multiset{job};
    }

    method RunWrite(job: nat) returns (answer: Answer)
      requires Valid()
      modifies this
      ensures Valid()
      ensures answer == if old(inFlight) < concurrency then Started else if |old(queue)| >= maxQueueDepth then Overflow else Waiting
      ensures admitted == if answer.Overflow? then old(admitted) else old(admitted) + [job]
      ensures started == if answer.Started? then old(started) + [job] else old(started)
      ensures active == if answer.Started? then old(active) + multiset{job} else old(active)
    {
      if inFlight < concurrency {
        inFlight := inFlight + 1;
        admitted := admitted + [job];
        Execute(job);
        answer := Started;
      } else if |queue| >= maxQueueDepth {
        answer := Overflow;
      } else {
        queue := queue + [job];
        admitted := admitted + [job];
        answer := Waiting;
      }
    }

    /** A started job settles: its slot goes to the oldest waiting job. */
    method Finish(job: nat)
      requires Valid() && job in active
      modifies this`inFlight, this`queue, this`started, this`active
      ensures Valid()
      ensures if old(queue) == [] then started == old(started) && queue == []
              else started == old(started) + [old(queue)[0]] && queue == old(queue)[1..]
      ensures active == old(active) - multiset{job} + (if old(queue) == [] then multiset{} else multiset{old(queue)[0]})
    {
      inFlight := inFlight - 1;
      active := active - multiset{job};
      Pump();
    }

    method Pump()
      requires admitted == started + queue && inFlight == |active| && active <= multiset(started)
      requires |queue| <= Max(0, maxQueueDepth) && inFlight < Max(0, concurrency)
      requires queue != [] ==> inFlight + 1 >= concurrency
      modifies this`inFlight, this`queue, this`started, this`active
      ensures Valid()
      ensures if old(queue) == [] then started == old(started) && queue == [] && active == old(active)
              else started == old(started) + [old(queue)[0]] && queue == old(queue)[1..] && active == old(active) + multiset{old(queue)[0]}
    {
      while inFlight < concurrency && |queue| > 0
        invariant admitted == started + queue && inFlight == |active| && active <= multiset(started)
        invariant |queue| <= Max(0, maxQueueDepth) && inFlight <= Max(0, concurrency)
        invariant inFlight == old(inFlight) ==>
                    && queue == old(queue) && started == old(started) && active == old(active)
                    && (queue != [] ==> inFlight + 1 >= concurrency)
        invariant inFlight != old(inFlight) ==>
                    && old(queue) != [] && inFlight >= concurrency
                    && started == old(started) + [old(queue)[0]] && queue == old(queue)[1..]
                    && active == old(active) + multiset{old(queue)[0]}
        decreases |queue|
      {
        var next := queue[0];
        queue := queue[1..];
        inFlight := inFlight + 1;
        Execute(next);
      }
    }
  }
}
