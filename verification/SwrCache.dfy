/**
  packages/eliza-plugin-memory/src/caches.ts: the stale-while-revalidate cache.

  Every call on the cache, and every resumption of a load or of a cold read, happens in a turn of its
  own; the number of the turn names whatever it creates: an invalidation's fresh revision object, a
  load's promise, a reader.
 */
module SwrCaches {
  import opened Options

  datatype Entry<V> = Entry(value: V, storedAt: int)

  datatype Outcome<V> = Pending | Resolved(value: V) | Rejected

  /** A run of a loader, and the revision its key had when it started. */
  datatype Load<V> = Load(key: string, revision: Option<nat>, outcome: Outcome<V>)

  datatype Reader<V> =
    | Waiting(key: string, revision: Option<nat>, load: nat, fallback: V)
    | Answered(value: V)

  /** A loader that throws ends its load with None; `late` is a read whose deadline passes first. */
  datatype Event<V> =
    | Set(key: string, value: V, now: int)
    | Invalidate(key: string)
    | InvalidateWhere(matches: string -> bool)
    | Read(key: string, fallback: V, now: int)
    | LoadEnds(load: nat, result: Option<V>, now: int)
    | ReadEnds(reader: nat, late: bool)
  {
    predicate Invalidates(k: string) {
      match this
      case Invalidate(key) => key == k
      case InvalidateWhere(matches) => matches(k)
      case _ => false
    }
  }

  function Hits(keys: set<string>, matches: string -> bool): set<string> { set k | k in keys && matches(k) }

  function Stamped(revisions: map<string, nat>, keys: set<string>, turn: nat): map<string, nat> {
    revisions + map k | k in keys :: turn
  }

  datatype Cache<V> = Cache(
    ttl: int,
    store: map<string, Entry<V>>,
    inflight: map<string, nat>,
    revisions: map<string, nat>,
    loads: map<nat, Load<V>>,
    readers: map<nat, Reader<V>>,
    turn: nat)
  {
    function Revision(key: string): Option<nat> { if key in revisions then Some(revisions[key]) else None }

    predicate Live(l: nat)
      requires l in loads
    {
      Revision(loads[l].key) == loads[l].revision
    }

    function Write(key: string, value: V, now: int): Cache<V> { this.(store := store[key := Entry(value, now)]) }

    function Drop(key: string): Cache<V> {
      this.(store := store - {key}, inflight := inflight - {key}, revisions := revisions[key := turn])
    }

    function Held(): set<string> { store.Keys + inflight.Keys }

    /** Only keys that are stored or loading are looked at. */
    function DropAll(keys: set<string>): Cache<V> {
      this.(store := store - keys, inflight := inflight - keys,
            revisions := Stamped(revisions, keys, turn))
    }

    function DropHits(keys: set<string>, matches: string -> bool): Cache<V> { DropAll(Hits(keys, matches)) }

    function DropWhere(matches: string -> bool): Cache<V> { DropHits(Held(), matches) }

    /** Join the load in flight for `key`, or start one. */
    function Revalidate(key: string): (Cache<V>, nat) {
      if key in inflight then (this, inflight[key])
      else (this.(inflight := inflight[key := turn], loads := loads[turn := Load(key, Revision(key), Pending)]), turn)
    }

    function Answer(r: nat, value: V): Cache<V> { this.(readers := readers[r := Answered(value)]) }

    /** read() up to its await. */
    function Ask(key: string, fallback: V, now: int): Cache<V> {
      if key in store then
        var entry := store[key];
        (if now - entry.storedAt < ttl then this else Revalidate(key).0).Answer(turn, entry.value)
      else
        var (c, l) := Revalidate(key);
        c.(readers := readers[turn := Waiting(key, Revision(key), l, fallback)])
    }

    function FinishLoad(l: nat, result: Option<V>, now: int): Cache<V>
      requires l in loads
    {
      var key := loads[l].key;
      var lands := result.Some? && Live(l);
      this.(store := if lands then store[key := Entry(result.value, now)] else store,
            loads := loads[l := loads[l].(outcome := if lands then Resolved(result.value) else Rejected)],
            inflight := if key in inflight && inflight[key] == l then inflight - {key} else inflight)
    }

    /** The rest of read(): the load's value, or after a rejection or the deadline what the store holds. */
    function Reply(r: nat, late: bool): V
      requires r in readers && readers[r].Waiting? && readers[r].load in loads
    {
      var reader := readers[r];
      var outcome := loads[reader.load].outcome;
      if Revision(reader.key) != reader.revision then reader.fallback
      else if !late && outcome.Resolved? then outcome.value
      else if reader.key in store then store[reader.key].value
      else reader.fallback
    }

    function FinishRead(r: nat, late: bool): Cache<V>
      requires r in readers && readers[r].Waiting? && readers[r].load in loads
    {
      Answer(r, Reply(r, late))
    }

    predicate Possible(e: Event<V>) {
      match e
      case LoadEnds(l, _, _) => l in loads && loads[l].outcome.Pending?
      case ReadEnds(r, late) =>
        && r in readers && readers[r].Waiting? && readers[r].load in loads
        && (late || !loads[readers[r].load].outcome.Pending?)
      case _ => true
    }

    function Act(e: Event<V>): Cache<V>
      requires Possible(e)
    {
      match e
      case Set(key, value, now) => Write(key, value, now)
      case Invalidate(key) => Drop(key)
      case InvalidateWhere(matches) => DropWhere(matches)
      case Read(key, fallback, now) => Ask(key, fallback, now)
      case LoadEnds(l, result, now) => FinishLoad(l, result, now)
      case ReadEnds(r, late) => FinishRead(r, late)
    }

    function After(e: Event<V>): Cache<V>
      requires Possible(e)
    {
      Act(e).(turn := turn + 1)
    }
  }

  function Empty<V>(ttl: int): Cache<V> { Cache(ttl, map[], map[], map[], map[], map[], 0) }

  /** Nothing has invalidated `k` since turn `j`. */
  predicate Untouched<V>(h: seq<Event<V>>, k: string, j: nat) {
    forall i | j < i < |h| :: !h[i].Invalidates(k)
  }

  /** Turn `j` is where `v` comes from: a set of `k`, or the read that started the load that produced it. */
  ghost predicate Gave<V>(c: Cache<V>, h: seq<Event<V>>, j: nat, k: string, v: V)
    requires j < |h|
  {
    || (h[j].Set? && h[j].key == k && h[j].value == v)
    || (h[j].Read? && h[j].key == k && j in c.loads && c.loads[j].key == k && c.loads[j].outcome == Resolved(v))
  }

  /** `v` is a current value of `k`: its set, or the start of its load, came after the last invalidation. */
  ghost predicate Current<V>(c: Cache<V>, h: seq<Event<V>>, k: string, v: V) {
    exists j: nat | j < |h| :: Untouched(h, k, j) && Gave(c, h, j, k, v)
  }

  /** The load in flight for `k` is an unfinished load of `k` under its present revision. */
  ghost predicate FlightValid<V>(c: Cache<V>, k: string)
    requires k in c.inflight
  {
    var l := c.inflight[k];
    l in c.loads && c.loads[l].key == k && c.loads[l].outcome.Pending? && c.Live(l)
  }

  ghost predicate LoadValid<V>(c: Cache<V>, h: seq<Event<V>>, l: nat)
    requires l in c.loads
  {
    var load := c.loads[l];
    && l < |h| && h[l].Read? && h[l].key == load.key
    && (Untouched(h, load.key, l) ==> c.Live(l))
    && (c.Live(l) && !load.outcome.Rejected? ==> Untouched(h, load.key, l))
    && (c.Live(l) && load.outcome.Pending? ==> load.key in c.inflight && c.inflight[load.key] == l)
    && (c.Live(l) && load.outcome.Resolved? ==> load.key in c.store)
    && (load.revision.Some? ==> load.revision.value < |h|)
  }

  ghost predicate ReaderValid<V>(c: Cache<V>, h: seq<Event<V>>, r: nat)
    requires r in c.readers
  {
    var reader := c.readers[r];
    r < |h| && (reader.Waiting? ==>
      && h[r].Read? && h[r].key == reader.key
      && reader.load in c.loads && c.loads[reader.load].key == reader.key && c.loads[reader.load].revision == reader.revision
      && (Untouched(h, reader.key, r) ==> c.Live(reader.load))
      && reader.load <= r)
  }

  ghost predicate Inv<V>(c: Cache<V>, h: seq<Event<V>>) {
    && c.turn == |h|
    && (forall k | k in c.revisions :: c.revisions[k] < |h|)
    && (forall k {:trigger FlightValid(c, k)} | k in c.inflight :: FlightValid(c, k))
    && (forall l {:trigger LoadValid(c, h, l)} | l in c.loads :: LoadValid(c, h, l))
    && (forall r {:trigger ReaderValid(c, h, r)} | r in c.readers :: ReaderValid(c, h, r))
    && (forall k {:trigger c.store[k]} | k in c.store :: Current(c, h, k, c.store[k].value))
  }

  lemma UntouchedThrough<V>(h: seq<Event<V>>, e: Event<V>, k: string, j: nat)
    requires j < |h|
    ensures Untouched(h + [e], k, j) <==> Untouched(h, k, j) && !e.Invalidates(k)
  {
    var g := h + [e];
    assert g[|h|] == e && forall i | 0 <= i < |h| :: g[i] == h[i];
    if Untouched(g, k, j) {
      assert forall i | j < i < |h| :: h[i] == g[i];
    }
  }

  /** A value stays current through a turn that does not invalidate its key and keeps the resolved loads. */
  lemma StaysCurrent<V>(c: Cache<V>, d: Cache<V>, h: seq<Event<V>>, e: Event<V>, k: string, v: V)
    requires Current(c, h, k, v) && !e.Invalidates(k)
    requires forall l | l in c.loads && c.loads[l].outcome.Resolved? :: l in d.loads && d.loads[l] == c.loads[l]
    ensures Current(d, h + [e], k, v)
  {
    var j: nat :| j < |h| && Untouched(h, k, j) && Gave(c, h, j, k, v);
    UntouchedThrough(h, e, k, j);
    assert Gave(d, h + [e], j, k, v);
  }

  /** A load, a reader or a stored value is not disturbed by a turn that leaves its key alone. */
  lemma LoadKept<V>(c: Cache<V>, d: Cache<V>, h: seq<Event<V>>, e: Event<V>, l: nat)
    requires l in c.loads && LoadValid(c, h, l) && l in d.loads && d.loads[l] == c.loads[l]
    requires !e.Invalidates(c.loads[l].key) && d.Revision(c.loads[l].key) == c.Revision(c.loads[l].key)
    requires c.loads[l].key in c.store ==> c.loads[l].key in d.store
    requires c.loads[l].key in c.inflight && c.inflight[c.loads[l].key] == l ==>
               c.loads[l].key in d.inflight && d.inflight[c.loads[l].key] == l
    ensures LoadValid(d, h + [e], l)
  {
    UntouchedThrough(h, e, c.loads[l].key, l);
  }

  lemma ReaderKept<V>(c: Cache<V>, d: Cache<V>, h: seq<Event<V>>, e: Event<V>, r: nat)
    requires r in c.readers && ReaderValid(c, h, r) && r in d.readers && d.readers[r] == c.readers[r]
    requires c.readers[r].Waiting? ==>
               && !e.Invalidates(c.readers[r].key) && d.Revision(c.readers[r].key) == c.Revision(c.readers[r].key)
               && c.readers[r].load in d.loads && d.loads[c.readers[r].load].key == c.readers[r].key
               && d.loads[c.readers[r].load].revision == c.readers[r].revision
    ensures ReaderValid(d, h + [e], r)
  {
    if c.readers[r].Waiting? {
      UntouchedThrough(h, e, c.readers[r].key, r);
    }
  }

  lemma WriteKeepsInv<V>(c: Cache<V>, h: seq<Event<V>>, e: Event<V>)
    requires Inv(c, h) && e.Set?
    ensures Inv(c.After(e), h + [e])
  {
    var d, g := c.After(e), h + [e];
    forall k | k in d.inflight ensures FlightValid(d, k) { assert FlightValid(c, k); }
    forall l | l in d.loads ensures LoadValid(d, g, l) { assert LoadValid(c, h, l); LoadKept(c, d, h, e, l); }
    forall r | r in d.readers ensures ReaderValid(d, g, r) { assert ReaderValid(c, h, r); ReaderKept(c, d, h, e, r); }
    forall k | k in d.store ensures Current(d, g, k, d.store[k].value) {
      if k == e.key {
        assert Untouched(g, k, |h|) && Gave(d, g, |h|, k, e.value);
      } else {
        StaysCurrent(c, d, h, e, k, d.store[k].value);
      }
    }
  }

  /** The keys whose revision an invalidating turn replaces. */
  ghost function Hit<V>(c: Cache<V>, e: Event<V>): set<string>
    requires e.Invalidate? || e.InvalidateWhere?
  {
    if e.Invalidate? then {e.key} else set k | k in c.Held() && e.matches(k)
  }

  lemma LoadDropped<V>(c: Cache<V>, h: seq<Event<V>>, e: Event<V>, l: nat)
    requires Inv(c, h) && (e.Invalidate? || e.InvalidateWhere?) && l in c.loads
    ensures LoadValid(c.After(e), h + [e], l)
  {
    var k := c.loads[l].key;
    assert LoadValid(c, h, l);
    UntouchedThrough(h, e, k, l);
    assert k in Hit(c, e) ==> c.After(e).Revision(k) == Some(|h|);
    assert k !in Hit(c, e) ==> c.After(e).Revision(k) == c.Revision(k);
  }

  lemma ReaderDropped<V>(c: Cache<V>, h: seq<Event<V>>, e: Event<V>, r: nat)
    requires Inv(c, h) && (e.Invalidate? || e.InvalidateWhere?) && r in c.readers
    ensures ReaderValid(c.After(e), h + [e], r)
  {
    assert ReaderValid(c, h, r);
    if c.readers[r].Waiting? {
      UntouchedThrough(h, e, c.readers[r].key, r);
    }
  }

  /** An invalidation is complete even though it looks only at keys that are stored or loading. */
  lemma DropKeepsInv<V>(c: Cache<V>, h: seq<Event<V>>, e: Event<V>)
    requires Inv(c, h) && (e.Invalidate? || e.InvalidateWhere?)
    ensures Inv(c.After(e), h + [e])
  {
    var d, g := c.After(e), h + [e];
    forall k | k in d.inflight ensures FlightValid(d, k) { assert FlightValid(c, k); }
    forall l | l in d.loads ensures LoadValid(d, g, l) { LoadDropped(c, h, e, l); }
    forall r | r in d.readers ensures ReaderValid(d, g, r) { ReaderDropped(c, h, e, r); }
    forall k | k in d.store ensures Current(d, g, k, d.store[k].value) {
      StaysCurrent(c, d, h, e, k, d.store[k].value);
    }
  }

  /** What a read leaves alone: everything but its key's load in flight and its own reader. */
  ghost predicate AskFrame<V>(c: Cache<V>, d: Cache<V>, key: string, n: nat) {
    && d.store == c.store && d.revisions == c.revisions
    && (|| (d.inflight == c.inflight && d.loads == c.loads)
        || (key !in c.inflight && d.inflight == c.inflight[key := n]
            && d.loads == c.loads[n := Load(key, c.Revision(key), Pending)]))
    && d.readers.Keys == c.readers.Keys + {n} && d.readers == c.readers[n := d.readers[n]]
    && (d.readers[n].Waiting? ==>
      && d.readers[n].key == key && d.readers[n].revision == c.Revision(key)
      && key in d.inflight && d.readers[n].load == d.inflight[key])
  }

  lemma AskHasFrame<V>(c: Cache<V>, key: string, fallback: V, now: int)
    ensures AskFrame(c, c.Ask(key, fallback, now), key, c.turn)
  {
  }

  lemma LoadAfterAsk<V>(c: Cache<V>, d: Cache<V>, h: seq<Event<V>>, e: Event<V>, l: nat)
    requires e.Read? && AskFrame(c, d, e.key, |h|) && l in d.loads
    requires l in c.loads ==> l < |h| && LoadValid(c, h, l)
    requires forall k | k in c.revisions :: c.revisions[k] < |h|
    ensures LoadValid(d, h + [e], l)
  {
    if l in c.loads && l < |h| {
      LoadKept(c, d, h, e, l);
    }
  }

  lemma ReaderAfterAsk<V>(c: Cache<V>, d: Cache<V>, h: seq<Event<V>>, e: Event<V>, r: nat)
    requires e.Read? && AskFrame(c, d, e.key, |h|) && r in d.readers
    requires r != |h| ==> ReaderValid(c, h, r)
    requires forall l | l in c.loads :: l < |h|
    requires r == |h| && e.key in d.inflight ==> FlightValid(d, e.key) && d.inflight[e.key] <= |h|
    ensures ReaderValid(d, h + [e], r)
  {
    if r != |h| {
      ReaderKept(c, d, h, e, r);
    }
  }

  lemma FramedKeepsValues<V>(c: Cache<V>, d: Cache<V>, h: seq<Event<V>>, e: Event<V>)
    requires Inv(c, h) && e.Read? && AskFrame(c, d, e.key, |h|)
    ensures forall k {:trigger d.store[k]} | k in d.store :: Current(d, h + [e], k, d.store[k].value)
  {
    forall l | l in c.loads ensures l < |h| { assert LoadValid(c, h, l); }
    forall k | k in d.store ensures Current(d, h + [e], k, d.store[k].value) {
      StaysCurrent(c, d, h, e, k, d.store[k].value);
    }
  }

  lemma FramedKeepsInv<V>(c: Cache<V>, d: Cache<V>, h: seq<Event<V>>, e: Event<V>)
    requires Inv(c, h) && e.Read? && AskFrame(c, d, e.key, |h|) && d.turn == |h| + 1
    ensures Inv(d, h + [e])
  {
    var g := h + [e];
    forall l | l in c.loads ensures l < |h| { assert LoadValid(c, h, l); }
    forall k | k in d.inflight ensures FlightValid(d, k) {
      if k in c.inflight { assert FlightValid(c, k); }
    }
    forall l | l in d.loads ensures LoadValid(d, g, l) {
      if l in c.loads { assert LoadValid(c, h, l); }
      LoadAfterAsk(c, d, h, e, l);
    }
    forall r | r in d.readers ensures ReaderValid(d, g, r) {
      if r != |h| { assert ReaderValid(c, h, r); }
      ReaderAfterAsk(c, d, h, e, r);
    }
    FramedKeepsValues(c, d, h, e);
  }

  lemma AskKeepsInv<V>(c: Cache<V>, h: seq<Event<V>>, e: Event<V>)
    requires Inv(c, h) && e.Read?
    ensures Inv(c.After(e), h + [e])
  {
    AskHasFrame(c, e.key, e.fallback, e.now);
    FramedKeepsInv(c, c.After(e), h, e);
  }

  /** What the end of load `l` changes. */
  ghost predicate Landed<V>(c: Cache<V>, d: Cache<V>, l: nat, result: Option<V>, now: int)
    requires l in c.loads
  {
    var key := c.loads[l].key;
    && d.revisions == c.revisions && d.readers == c.readers
    && d.inflight == (if key in c.inflight && c.inflight[key] == l then c.inflight - {key} else c.inflight)
    && (if result.Some? && c.Live(l)
        then d.store == c.store[key := Entry(result.value, now)] && d.loads == c.loads[l := Load(key, c.loads[l].revision, Resolved(result.value))]
        else d.store == c.store && d.loads == c.loads[l := Load(key, c.loads[l].revision, Rejected)])
  }

  lemma LoadFinished<V>(c: Cache<V>, d: Cache<V>, h: seq<Event<V>>, e: Event<V>, l: nat)
    requires e.LoadEnds? && e.load in c.loads && Landed(c, d, e.load, e.result, e.now)
    requires l in c.loads && LoadValid(c, h, l) && c.loads[e.load].outcome.Pending?
    ensures l in d.loads && LoadValid(d, h + [e], l)
  {
    UntouchedThrough(h, e, c.loads[l].key, l);
  }

  lemma ReaderAfterLoad<V>(c: Cache<V>, d: Cache<V>, h: seq<Event<V>>, e: Event<V>, r: nat)
    requires e.LoadEnds? && e.load in c.loads && Landed(c, d, e.load, e.result, e.now)
    requires r in c.readers && ReaderValid(c, h, r)
    ensures ReaderValid(d, h + [e], r)
  {
    ReaderKept(c, d, h, e, r);
  }

  lemma FlightAfterLoad<V>(c: Cache<V>, d: Cache<V>, e: Event<V>, k: string)
    requires e.LoadEnds? && e.load in c.loads && Landed(c, d, e.load, e.result, e.now)
    requires k in c.inflight && FlightValid(c, k) && k in d.inflight
    ensures FlightValid(d, k)
  {
  }

  lemma StoreAfterLoad<V>(c: Cache<V>, d: Cache<V>, h: seq<Event<V>>, e: Event<V>, k: string)
    requires e.LoadEnds? && e.load in c.loads && c.loads[e.load].outcome.Pending? && Landed(c, d, e.load, e.result, e.now)
    requires LoadValid(c, h, e.load) && k in d.store && (k in c.store ==> Current(c, h, k, c.store[k].value))
    ensures Current(d, h + [e], k, d.store[k].value)
  {
    var f := e.load;
    if k == c.loads[f].key && e.result.Some? && c.Live(f) {
      UntouchedThrough(h, e, k, f);
      assert Gave(d, h + [e], f, k, e.result.value);
    } else {
      StaysCurrent(c, d, h, e, k, d.store[k].value);
    }
  }

  lemma LandedKeepsInv<V>(c: Cache<V>, d: Cache<V>, h: seq<Event<V>>, e: Event<V>)
    requires Inv(c, h) && e.LoadEnds? && e.load in c.loads && c.loads[e.load].outcome.Pending?
    requires Landed(c, d, e.load, e.result, e.now) && d.turn == |h| + 1
    ensures Inv(d, h + [e])
  {
    var g := h + [e];
    assert d.loads.Keys == c.loads.Keys;
    forall k | k in d.inflight ensures FlightValid(d, k) { assert FlightValid(c, k); FlightAfterLoad(c, d, e, k); }
    forall l | l in d.loads ensures LoadValid(d, g, l) { assert LoadValid(c, h, l); LoadFinished(c, d, h, e, l); }
    forall r | r in d.readers ensures ReaderValid(d, g, r) { assert ReaderValid(c, h, r); ReaderAfterLoad(c, d, h, e, r); }
    forall k | k in d.store ensures Current(d, g, k, d.store[k].value) {
      assert LoadValid(c, h, e.load);
      StoreAfterLoad(c, d, h, e, k);
    }
  }

  lemma FinishLoadKeepsInv<V>(c: Cache<V>, h: seq<Event<V>>, e: Event<V>)
    requires Inv(c, h) && e.LoadEnds? && c.Possible(e)
    ensures Inv(c.After(e), h + [e])
  {
    LandedKeepsInv(c, c.After(e), h, e);
  }

  lemma FinishReadKeepsInv<V>(c: Cache<V>, h: seq<Event<V>>, e: Event<V>)
    requires Inv(c, h) && e.ReadEnds? && c.Possible(e)
    ensures Inv(c.After(e), h + [e])
  {
    var d, g := c.After(e), h + [e];
    assert d == c.Answer(e.reader, c.Reply(e.reader, e.late)).(turn := c.turn + 1);
    forall k | k in d.inflight ensures FlightValid(d, k) { assert FlightValid(c, k); }
    forall l | l in d.loads ensures LoadValid(d, g, l) { assert LoadValid(c, h, l); LoadKept(c, d, h, e, l); }
    forall r | r in d.readers ensures ReaderValid(d, g, r) {
      if r == e.reader { assert ReaderValid(c, h, r); } else { assert ReaderValid(c, h, r); ReaderKept(c, d, h, e, r); }
    }
    forall k | k in d.store ensures Current(d, g, k, d.store[k].value) {
      StaysCurrent(c, d, h, e, k, d.store[k].value);
    }
  }

  lemma EventKeepsInv<V>(c: Cache<V>, h: seq<Event<V>>, e: Event<V>)
    requires Inv(c, h) && c.Possible(e)
    ensures Inv(c.After(e), h + [e])
  {
    match e
    case Set(_, _, _) => WriteKeepsInv(c, h, e);
    case Invalidate(_) => DropKeepsInv(c, h, e);
    case InvalidateWhere(_) => DropKeepsInv(c, h, e);
    case Read(_, _, _) => AskKeepsInv(c, h, e);
    case LoadEnds(_, _, _) => FinishLoadKeepsInv(c, h, e);
    case ReadEnds(_, _) => FinishReadKeepsInv(c, h, e);
  }

  /** `cs` are the states that a new cache goes through in the turns `h`. */
  ghost predicate Trace<V>(cs: seq<Cache<V>>, h: seq<Event<V>>) {
    && |cs| == |h| + 1
    && cs[0] == Empty(cs[0].ttl)
    && forall i {:trigger h[i]} | 0 <= i < |h| :: cs[i].Possible(h[i]) && cs[i + 1] == cs[i].After(h[i])
  }

  lemma {:induction false} TraceInv<V>(cs: seq<Cache<V>>, h: seq<Event<V>>, i: nat)
    requires Trace(cs, h) && i <= |h|
    ensures Inv(cs[i], h[..i])
  {
    if i > 0 {
      TraceInv(cs, h, i - 1);
      EventKeepsInv(cs[i - 1], h[..i - 1], h[i - 1]);
      assert h[..i] == h[..i - 1] + [h[i - 1]];
    }
  }

  /** Every value the cache holds was set, or its load started, after the last invalidation of its key. */
  lemma StoreIsCurrent<V>(cs: seq<Cache<V>>, h: seq<Event<V>>, n: nat, k: string)
    requires Trace(cs, h) && n <= |h| && k in cs[n].store
    ensures Current(cs[n], h[..n], k, cs[n].store[k].value)
  {
    TraceInv(cs, h, n);
  }

  /** Each key has at most one unfinished load that can still store its value. */
  lemma OneLiveLoad<V>(cs: seq<Cache<V>>, h: seq<Event<V>>, n: nat, l: nat, m: nat)
    requires Trace(cs, h) && n <= |h| && l in cs[n].loads && m in cs[n].loads && cs[n].loads[l].key == cs[n].loads[m].key
    requires cs[n].loads[l].outcome.Pending? && cs[n].loads[m].outcome.Pending? && cs[n].Live(l) && cs[n].Live(m)
    ensures l == m
  {
    TraceInv(cs, h, n);
    assert LoadValid(cs[n], h[..n], l) && LoadValid(cs[n], h[..n], m);
  }

  /** A load stores what its loader returned exactly when nothing has invalidated its key since it started. */
  lemma LoadLandsIff<V>(cs: seq<Cache<V>>, h: seq<Event<V>>, n: nat, l: nat, v: V, now: int)
    requires Trace(cs, h) && n <= |h| && l in cs[n].loads && cs[n].loads[l].outcome.Pending?
    ensures cs[n].FinishLoad(l, Some(v), now).loads[l].outcome == Resolved(v) <==> Untouched(h[..n], cs[n].loads[l].key, l)
    ensures Untouched(h[..n], cs[n].loads[l].key, l) ==> cs[n].FinishLoad(l, Some(v), now).store == cs[n].store[cs[n].loads[l].key := Entry(v, now)]
    ensures !Untouched(h[..n], cs[n].loads[l].key, l) ==> cs[n].FinishLoad(l, Some(v), now).store == cs[n].store
  {
    TraceInv(cs, h, n);
    assert LoadValid(cs[n], h[..n], l);
  }

  /**
    A cold read whose load resolved in time returns the load's value exactly when nothing has
    invalidated the key since the read began; otherwise it returns the fallback.
   */
  lemma ColdReadIff<V>(cs: seq<Cache<V>>, h: seq<Event<V>>, n: nat, r: nat)
    requires Trace(cs, h) && n <= |h| && r in cs[n].readers && cs[n].readers[r].Waiting?
    requires cs[n].readers[r].load in cs[n].loads && cs[n].loads[cs[n].readers[r].load].outcome.Resolved?
    ensures var reader := cs[n].readers[r];
      cs[n].FinishRead(r, false).readers[r] ==
        Answered(if Untouched(h[..n], reader.key, r) then cs[n].loads[reader.load].outcome.value else reader.fallback)
  {
    TraceInv(cs, h, n);
    assert ReaderValid(cs[n], h[..n], r);
    assert LoadValid(cs[n], h[..n], cs[n].readers[r].load);
  }

  /** Whatever a cold read returns, in time or late, is its fallback or a current value. */
  lemma ColdReadIsCurrent<V>(cs: seq<Cache<V>>, h: seq<Event<V>>, n: nat, r: nat, late: bool)
    requires Trace(cs, h) && n <= |h| && cs[n].Possible(ReadEnds(r, late))
    ensures var answer := cs[n].FinishRead(r, late).readers[r];
      answer.Answered? && (answer.value == cs[n].readers[r].fallback || Current(cs[n], h[..n], cs[n].readers[r].key, answer.value))
  {
    TraceInv(cs, h, n);
    assert ReaderValid(cs[n], h[..n], r);
    var l := cs[n].readers[r].load;
    assert LoadValid(cs[n], h[..n], l);
    if cs[n].Live(l) && cs[n].loads[l].outcome.Resolved? {
      assert Gave(cs[n], h[..n], l, cs[n].readers[r].key, cs[n].loads[l].outcome.value);
    }
  }

  /**
    What a read does at once. It is answered at once exactly when the key is stored, fresh or not, with
    what is stored; and it starts a load exactly when none is in flight and the key is missing or stale,
    while a reader that has to wait waits for the load in flight.
   */
  lemma ReadIff<V>(cs: seq<Cache<V>>, h: seq<Event<V>>, n: nat, key: string, fallback: V, now: int)
    requires Trace(cs, h) && n <= |h|
    ensures var c, t := cs[n], cs[n].After(Read(key, fallback, now));
      var wanted := key !in c.store || now - c.store[key].storedAt >= c.ttl;
      && n in t.readers && t.store == c.store && t.revisions == c.revisions
      && (t.readers[n].Answered? <==> key in c.store)
      && (key in c.store ==> t.readers[n] == Answered(c.store[key].value))
      && (n in t.loads <==> key !in c.inflight && wanted)
      && (n in t.loads ==> t.loads[n] == Load(key, c.Revision(key), Pending))
      && (key in t.inflight <==> key in c.inflight || wanted)
      && (key !in c.store ==> key in t.inflight && t.readers[n] == Waiting(key, c.Revision(key), t.inflight[key], fallback))
  {
    TraceInv(cs, h, n);
    assert n in cs[n].loads ==> LoadValid(cs[n], h[..n], n);
  }

  /** A read that is late, or whose load failed, with no invalidation since it began, returns what is stored, and its fallback where nothing is. */
  lemma LateReadIs<V>(cs: seq<Cache<V>>, h: seq<Event<V>>, n: nat, r: nat, late: bool)
    requires Trace(cs, h) && n <= |h| && cs[n].Possible(ReadEnds(r, late)) && Untouched(h[..n], cs[n].readers[r].key, r)
    requires late || cs[n].loads[cs[n].readers[r].load].outcome.Rejected?
    ensures var reader := cs[n].readers[r];
      cs[n].After(ReadEnds(r, late)).readers[r] ==
        Answered(if reader.key in cs[n].store then cs[n].store[reader.key].value else reader.fallback)
  {
    TraceInv(cs, h, n);
    assert ReaderValid(cs[n], h[..n], r);
  }

  /** What an invalidation does to key `k`: nothing of it stays, its loads are fenced off, and readers and loads go on. */
  ghost predicate Dropped<V>(c: Cache<V>, t: Cache<V>, k: string) {
    && k !in t.store && k !in t.inflight
    && forall l | l in c.loads && c.loads[l].key == k :: l in t.loads && !t.Live(l)
  }

  ghost predicate LeftAlone<V>(c: Cache<V>, t: Cache<V>, k: string) {
    && (k in t.store <==> k in c.store) && (k in c.store ==> t.store[k] == c.store[k])
    && (k in t.inflight <==> k in c.inflight) && (k in c.inflight ==> t.inflight[k] == c.inflight[k])
    && t.Revision(k) == c.Revision(k)
  }

  lemma LoadsAreOlder<V>(cs: seq<Cache<V>>, h: seq<Event<V>>, n: nat)
    requires Trace(cs, h) && n <= |h|
    ensures cs[n].turn == n && forall l | l in cs[n].loads :: cs[n].loads[l].revision != Some(n)
  {
    TraceInv(cs, h, n);
    forall l | l in cs[n].loads ensures cs[n].loads[l].revision != Some(n) {
      assert LoadValid(cs[n], h[..n], l);
    }
  }

  /** An invalidation drops its key and no other; one by predicate drops exactly the stored or loading keys that match. */
  lemma DroppedIff<V>(cs: seq<Cache<V>>, h: seq<Event<V>>, n: nat, e: Event<V>, k: string)
    requires Trace(cs, h) && n <= |h| && (e.Invalidate? || e.InvalidateWhere?)
    ensures var c, t := cs[n], cs[n].After(e);
      && t.loads == c.loads && t.readers == c.readers
      && if e.Invalidates(k) && (e.Invalidate? || k in c.store || k in c.inflight) then Dropped(c, t, k) else LeftAlone(c, t, k)
  {
    LoadsAreOlder(cs, h, n);
  }

  /** set() does not fence a load in flight: the older loaded value replaces the newer one written. */
  lemma SetCanBeOverwritten()
    ensures exists cs: seq<Cache<int>>, h: seq<Event<int>> ::
              && Trace(cs, h) && h == [Read("k", 0, 0), Set("k", 1, 0), LoadEnds(0, Some(2), 0)]
              && cs[2].store == map["k" := Entry(1, 0)] && cs[3].store == map["k" := Entry(2, 0)]
  {
    var h: seq<Event<int>> := [Read("k", 0, 0), Set("k", 1, 0), LoadEnds(0, Some(2), 0)];
    var c0 := Empty(1);
    var c1 := c0.After(h[0]);
    assert c1.loads == map[0 := Load("k", None, Pending)];
    var c2 := c1.After(h[1]);
    var c3 := c2.After(h[2]);
    var cs := [c0, c1, c2, c3];
    assert Trace(cs, h);
  }

  /** Turn `i` ends a load of `k` that stores its value. */
  ghost predicate Lands<V>(cs: seq<Cache<V>>, h: seq<Event<V>>, i: nat, k: string)
    requires i < |h| < |cs|
  {
    h[i].LoadEnds? && h[i].load in cs[i].loads && cs[i].loads[h[i].load].key == k && h[i].result.Some? && cs[i].Live(h[i].load)
  }

  /** From turn `s` to turn `n` nobody sets or invalidates `k`, and no load of it that started since `s` has landed. */
  ghost predicate Alone<V>(cs: seq<Cache<V>>, h: seq<Event<V>>, s: nat, n: nat, k: string)
    requires n <= |h| < |cs|
  {
    forall i {:trigger h[i]} | s < i < n :: !(h[i].Set? && h[i].key == k) && !h[i].Invalidates(k) && (Lands(cs, h, i, k) ==> h[i].load < s)
  }

  /** Whatever load of `k` is in flight started after turn `s`. */
  predicate FlightSince<V>(c: Cache<V>, k: string, s: nat) { k in c.inflight ==> c.inflight[k] > s }

  lemma QuietRead<V>(c: Cache<V>, e: Event<V>, k: string, s: nat)
    requires e.Read? && c.turn > s
    ensures c.After(e).store == c.store && (FlightSince(c, k, s) ==> FlightSince(c.After(e), k, s))
  {
  }

  lemma QuietLoad<V>(c: Cache<V>, e: Event<V>, k: string)
    requires e.LoadEnds? && c.Possible(e)
    ensures c.loads[e.load].key != k || e.result.None? || !c.Live(e.load) ==>
              k in c.store ==> k in c.After(e).store && c.After(e).store[k] == c.store[k]
    ensures k in c.After(e).inflight ==> k in c.inflight && c.After(e).inflight[k] == c.inflight[k]
  {
  }

  /** A turn that neither sets nor invalidates `k` and lands no load of it leaves its entry, and starts only later loads. */
  lemma QuietTurn<V>(cs: seq<Cache<V>>, h: seq<Event<V>>, i: nat, k: string, s: nat)
    requires Trace(cs, h) && s < i < |h|
    requires !(h[i].Set? && h[i].key == k) && !h[i].Invalidates(k)
    ensures !Lands(cs, h, i, k) && k in cs[i].store ==> k in cs[i + 1].store && cs[i + 1].store[k] == cs[i].store[k]
    ensures FlightSince(cs[i], k, s) ==> FlightSince(cs[i + 1], k, s)
  {
    TraceInv(cs, h, i);
    assert cs[i + 1] == cs[i].After(h[i]);
    match h[i]
    case Read(_, _, _) => QuietRead(cs[i], h[i], k, s);
    case LoadEnds(_, _, _) => QuietLoad(cs[i], h[i], k);
    case _ =>
  }

  lemma LandingTurn<V>(cs: seq<Cache<V>>, h: seq<Event<V>>, i: nat, k: string)
    requires Trace(cs, h) && i < |h| && Lands(cs, h, i, k)
    ensures k in cs[i].inflight && cs[i].inflight[k] == h[i].load && k !in cs[i + 1].inflight
    ensures k in cs[i + 1].store && cs[i + 1].store[k] == Entry(h[i].result.value, h[i].now)
  {
    TraceInv(cs, h, i);
    assert LoadValid(cs[i], h[..i], h[i].load);
    assert cs[i + 1] == cs[i].After(h[i]);
  }

  lemma SetTurn<V>(cs: seq<Cache<V>>, h: seq<Event<V>>, s: nat)
    requires Trace(cs, h) && s < |h| && h[s].Set?
    ensures h[s].key in cs[s + 1].store && cs[s + 1].store[h[s].key] == Entry(h[s].value, h[s].now)
  {
    assert cs[s + 1] == cs[s].After(h[s]);
  }

  /** Since the set of turn `s` no load of its key has landed, and the entry is the set's; or just one has, and the entry is that load's. */
  ghost predicate LandedSince<V>(cs: seq<Cache<V>>, h: seq<Event<V>>, s: nat, n: nat, landing: Option<nat>)
    requires s < n <= |h| < |cs| && h[s].Set?
  {
    && h[s].key in cs[n].store
    && (landing.None? ==>
          cs[n].store[h[s].key] == Entry(h[s].value, h[s].now) && forall i | s < i < n :: !Lands(cs, h, i, h[s].key))
    && (landing.Some? ==>
          && s < landing.value < n && Lands(cs, h, landing.value, h[s].key)
          && cs[n].store[h[s].key] == Entry(h[landing.value].result.value, h[landing.value].now) && FlightSince(cs[n], h[s].key, s)
          && forall i | s < i < n && Lands(cs, h, i, h[s].key) :: i == landing.value)
  }

  lemma LandedQuietly<V>(cs: seq<Cache<V>>, h: seq<Event<V>>, s: nat, n: nat, landing: Option<nat>)
    requires s < n < |h| < |cs| && h[s].Set? && LandedSince(cs, h, s, n, landing) && !Lands(cs, h, n, h[s].key)
    requires h[s].key in cs[n + 1].store && cs[n + 1].store[h[s].key] == cs[n].store[h[s].key]
    requires FlightSince(cs[n], h[s].key, s) ==> FlightSince(cs[n + 1], h[s].key, s)
    ensures LandedSince(cs, h, s, n + 1, landing)
  {
  }

  lemma LandedNow<V>(cs: seq<Cache<V>>, h: seq<Event<V>>, s: nat, n: nat)
    requires Trace(cs, h) && s < n < |h| && h[s].Set? && LandedSince(cs, h, s, n, None) && Lands(cs, h, n, h[s].key)
    ensures LandedSince(cs, h, s, n + 1, Some(n))
  {
    LandingTurn(cs, h, n, h[s].key);
  }

  /** A load that was in flight at the set has landed; no other one can be in flight. */
  lemma LandsOnce<V>(cs: seq<Cache<V>>, h: seq<Event<V>>, s: nat, n: nat, landing: Option<nat>)
    requires Trace(cs, h) && s < n < |h| && h[s].Set? && LandedSince(cs, h, s, n, landing) && Lands(cs, h, n, h[s].key)
    requires Alone(cs, h, s, n + 1, h[s].key)
    ensures landing.None?
  {
    LandingTurn(cs, h, n, h[s].key);
  }

  /** At most one load that was in flight at a set lands after it, and then its value is what is stored. */
  lemma {:induction false} AfterSet<V>(cs: seq<Cache<V>>, h: seq<Event<V>>, s: nat, n: nat) returns (landing: Option<nat>)
    requires Trace(cs, h) && s < n <= |h| && h[s].Set? && Alone(cs, h, s, n, h[s].key)
    ensures LandedSince(cs, h, s, n, landing)
    decreases n
  {
    if n == s + 1 {
      landing := None;
      SetTurn(cs, h, s);
    } else {
      landing := AfterSet(cs, h, s, n - 1);
      if Lands(cs, h, n - 1, h[s].key) {
        LandsOnce(cs, h, s, n - 1, landing);
        LandedNow(cs, h, s, n - 1);
        landing := Some(n - 1);
      } else {
        QuietTurn(cs, h, n - 1, h[s].key, s);
        LandedQuietly(cs, h, s, n - 1, landing);
      }
    }
  }

  /**
    While nobody else sets or invalidates the key and no later load lands, the entry that a set wrote is
    still there exactly when every load that was in flight at the set and has landed brought the same entry.
   */
  lemma SetStaysIff<V>(cs: seq<Cache<V>>, h: seq<Event<V>>, s: nat, n: nat)
    requires Trace(cs, h) && s < n <= |h| && h[s].Set? && Alone(cs, h, s, n, h[s].key)
    ensures var written := Entry(h[s].value, h[s].now);
      && h[s].key in cs[n].store
      && (cs[n].store[h[s].key] == written <==>
            forall i {:trigger h[i]} | s < i < n && Lands(cs, h, i, h[s].key) :: Entry(h[i].result.value, h[i].now) == written)
  {
    var landing := AfterSet(cs, h, s, n);
  }

  lemma {:induction false} FlightStays<V>(cs: seq<Cache<V>>, h: seq<Event<V>>, s: nat, n: nat)
    requires Trace(cs, h) && s < n <= |h| && h[s].Set? && Alone(cs, h, s, n, h[s].key) && h[s].key !in cs[s].inflight
    ensures FlightSince(cs[n], h[s].key, s)
    decreases n
  {
    if n == s + 1 {
      assert cs[n] == cs[s].After(h[s]);
    } else {
      FlightStays(cs, h, s, n - 1);
      QuietTurn(cs, h, n - 1, h[s].key, s);
    }
  }

  /** With no load of the key in flight at the set, nothing but a later set, invalidation or load replaces what it wrote. */
  lemma SetStays<V>(cs: seq<Cache<V>>, h: seq<Event<V>>, s: nat, n: nat)
    requires Trace(cs, h) && s < n <= |h| && h[s].Set? && Alone(cs, h, s, n, h[s].key) && h[s].key !in cs[s].inflight
    ensures h[s].key in cs[n].store && cs[n].store[h[s].key] == Entry(h[s].value, h[s].now)
  {
    var landing := AfterSet(cs, h, s, n);
    if landing.Some? {
      FlightStays(cs, h, s, landing.value);
      LandingTurn(cs, h, landing.value, h[s].key);
    }
  }

  /** With one in flight, the end of that load replaces it, whatever its loader returns. */
  lemma SetIsReplaced<V>(cs: seq<Cache<V>>, h: seq<Event<V>>, s: nat, w: V, later: int)
    requires Trace(cs, h) && |h| == s + 1 && h[s].Set? && h[s].key in cs[s].inflight
    ensures var e := LoadEnds(cs[s].inflight[h[s].key], Some(w), later);
      && cs[s + 1].Possible(e) && e.load < s
      && h[s].key in cs[s + 1].After(e).store && cs[s + 1].After(e).store[h[s].key] == Entry(w, later)
  {
    TraceInv(cs, h, s);
    var k := h[s].key;
    assert cs[s + 1] == cs[s].After(h[s]);
    assert FlightValid(cs[s], k) && LoadValid(cs[s], h[..s], cs[s].inflight[k]);
  }

  /** The run goes on after the set, with nobody else setting or invalidating its key and no later load landing. */
  ghost predicate Continues<V>(cs: seq<Cache<V>>, h: seq<Event<V>>, s: nat, on: seq<Cache<V>>, more: seq<Event<V>>, n: nat) {
    && Trace(on, more) && s < n <= |more| && |h| == s + 1 && |cs| == s + 2
    && on[..s + 2] == cs && more[..s + 1] == h && h[s].Set? && Alone(on, more, s, n, h[s].key)
  }

  ghost predicate StillWritten<V>(c: Cache<V>, e: Event<V>)
    requires e.Set?
  {
    e.key in c.store && c.store[e.key] == Entry(e.value, e.now)
  }

  lemma Replacement<V>(cs: seq<Cache<V>>, h: seq<Event<V>>, s: nat) returns (on: seq<Cache<V>>, more: seq<Event<V>>)
    requires Trace(cs, h) && |h| == s + 1 && h[s].Set? && h[s].key in cs[s].inflight
    ensures Continues(cs, h, s, on, more, s + 2) && !StillWritten(on[s + 2], h[s])
  {
    SetIsReplaced(cs, h, s, h[s].value, h[s].now + 1);
    var e := LoadEnds(cs[s].inflight[h[s].key], Some(h[s].value), h[s].now + 1);
    on, more := cs + [cs[s + 1].After(e)], h + [e];
    assert more[s + 1] == e && forall i {:trigger more[i]} | 0 <= i <= s :: more[i] == h[i] && on[i] == cs[i] && on[i + 1] == cs[i + 1];
  }

  /**
    Exactly when a caller can rely on set(): what it writes stays, in every continuation without another
    set, invalidation or later load of the key, exactly when no load of the key is in flight at the call.
   */
  lemma SetIsSafeIff<V>(cs: seq<Cache<V>>, h: seq<Event<V>>, s: nat)
    requires Trace(cs, h) && |h| == s + 1 && h[s].Set?
    ensures h[s].key !in cs[s].inflight <==>
              forall on: seq<Cache<V>>, more: seq<Event<V>>, n: nat | Continues(cs, h, s, on, more, n) :: StillWritten(on[n], h[s])
  {
    if h[s].key in cs[s].inflight {
      var on, more := Replacement(cs, h, s);
      assert Continues(cs, h, s, on, more, s + 2);
    } else {
      forall on: seq<Cache<V>>, more: seq<Event<V>>, n: nat | Continues(cs, h, s, on, more, n) ensures StillWritten(on[n], h[s]) {
        assert more[s] == h[s] && on[s] == cs[s];
        SetStays(on, more, s, n);
      }
    }
  }

  lemma RemoveNext<T>(m: map<string, T>, hits: set<string>, key: string)
    ensures m - {key} - hits == m - ({key} + hits)
  {
  }

  lemma StampNext(m: map<string, nat>, hits: set<string>, turn: nat, key: string)
    ensures Stamped(m[key := turn], hits, turn) == Stamped(m, {key} + hits, turn)
  {
  }

  lemma DropNone<V>(c: Cache<V>, matches: string -> bool)
    ensures c.DropHits({}, matches) == c
  {
    assert Hits({}, matches) == {};
  }

  /** Dropping one matching key and then the others is dropping them all. */
  lemma DropNext<V>(c: Cache<V>, rest: set<string>, key: string, matches: string -> bool)
    requires key in rest
    ensures (if matches(key) then c.Drop(key) else c).DropHits(rest - {key}, matches) == c.DropHits(rest, matches)
  {
    var hits := Hits(rest - {key}, matches);
    if matches(key) {
      assert Hits(rest, matches) == {key} + hits;
      RemoveNext(c.store, hits, key);
      RemoveNext(c.inflight, hits, key);
      StampNext(c.revisions, hits, c.turn, key);
    } else {
      assert Hits(rest, matches) == hits;
    }
  }

  class SwrCache<V> {
    const ttlMs: int
    var store: map<string, Entry<V>>
    var inflight: map<string, nat>
    var revisions: map<string, nat>
    var turn: nat
    /** The loads and the cold reads that the cache has started. */
    var loads: map<nat, Load<V>>
    var readers: map<nat, Reader<V>>

    ghost function View(): Cache<V>
      reads this
    {
      Cache(ttlMs, store, inflight, revisions, loads, readers, turn)
    }

    constructor (ttlMs: int)
      ensures View() == Empty(ttlMs)
    {
      this.ttlMs := ttlMs;
      store, inflight, revisions, turn := map[], map[], map[], 0;
      loads, readers := map[], map[];
    }

    method Set(key: string, value: V, now: int)
      modifies this`store
      ensures View() == old(View()).Write(key, value, now)
    {
      store := store[key := Entry(value, now)];
    }

    method Invalidate(key: string)
      modifies this`store, this`inflight, this`revisions
      ensures View() == old(View()).Drop(key)
    {
      store := store - {key};
      inflight := inflight - {key};
      revisions := revisions[key := turn];
    }

    method InvalidateWhere(matches: string -> bool)
      modifies this`store, this`inflight, this`revisions
      ensures View() == old(View()).DropWhere(matches)
    {
      var rest := store.Keys + inflight.Keys;
      while rest != {}
        invariant View().DropHits(rest, matches) == old(View()).DropWhere(matches)
        decreases |rest|
      {
        ghost var before := View();
        var key :| key in rest;
        DropNext(before, rest, key, matches);
        rest := rest - {key};
        if matches(key) {
          Invalidate(key);
        }
        assert View() == if matches(key) then before.Drop(key) else before;
      }
      DropNone(View(), matches);
    }

    method Revalidate(key: string) returns (l: nat)
      modifies this`inflight, this`loads
      ensures (View(), l) == old(View()).Revalidate(key)
    {
      if key in inflight {
        return inflight[key];
      }
      l := turn;
      inflight := inflight[key := l];
      loads := loads[l := Load(key, if key in revisions then Some(revisions[key]) else None, Pending)];
    }

    /** read() up to its await. */
    method Read(key: string, fallback: V, now: int)
      modifies this`inflight, this`loads, this`readers
      ensures View() == old(View()).Ask(key, fallback, now)
    {
      if key in store {
        var entry := store[key];
        if !(now - entry.storedAt < ttlMs) {
          var _ := Revalidate(key);
        }
        readers := readers[turn := Answered(entry.value)];
      } else {
        var revision := if key in revisions then Some(revisions[key]) else None;
        var l := Revalidate(key);
        readers := readers[turn := Waiting(key, revision, l, fallback)];
      }
    }

    /** revalidate() after its loader has settled. */
    method LoadEnds(l: nat, result: Option<V>, now: int)
      requires l in loads
      modifies this`store, this`inflight, this`loads
      ensures View() == old(View()).FinishLoad(l, result, now)
    {
      var load := loads[l];
      var revision := if load.key in revisions then Some(revisions[load.key]) else None;
      if result.Some? && revision == load.revision {
        Set(load.key, result.value, now);
        loads := loads[l := load.(outcome := Resolved(result.value))];
      } else {
        loads := loads[l := load.(outcome := Rejected)];
      }
      if load.key in inflight && inflight[load.key] == l {
        inflight := inflight - {load.key};
      }
    }

    /** read() after its await. */
    method ReadEnds(r: nat, late: bool)
      requires r in readers && readers[r].Waiting? && readers[r].load in loads
      modifies this`readers
      ensures View() == old(View()).FinishRead(r, late)
    {
      var reader := readers[r];
      var revision := if reader.key in revisions then Some(revisions[reader.key]) else None;
      var answer: V;
      if !late && loads[reader.load].outcome.Resolved? {
        answer := if revision == reader.revision then loads[reader.load].outcome.value else reader.fallback;
      } else if revision != reader.revision {
        answer := reader.fallback;
      } else {
        answer := if reader.key in store then store[reader.key].value else reader.fallback;
      }
      readers := readers[r := Answered(answer)];
    }

    /** The next turn of the event loop that concerns this cache. */
    method Turn(e: Event<V>)
      requires View().Possible(e)
      modifies this
      ensures View() == old(View()).After(e)
    {
      match e {
        case Set(key, value, now) => Set(key, value, now);
        case Invalidate(key) => Invalidate(key);
        case InvalidateWhere(matches) => InvalidateWhere(matches);
        case Read(key, fallback, now) => Read(key, fallback, now);
        case LoadEnds(l, result, now) => LoadEnds(l, result, now);
        case ReadEnds(r, late) => ReadEnds(r, late);
      }
      turn := turn + 1;
    }
  }
}
