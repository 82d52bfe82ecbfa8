/**
  packages/eliza-plugin-memory/src/entity-registry.ts: the registry of per-user clients.

  Every call on the registry, and every resumption of a registration after an await, happens in a turn
  of its own. A registration is named by the turn in which it was begun, and so is the client it builds;
  the fresh revision objects are named the same way. The callback isCurrent, which the registry may call
  at every check, is the `current` of the turn.
 */
module EntityRegistries {
  import opened Collections
  import opened Options

  datatype Client = Given(entity: string) | Built(id: nat)

  datatype Entry = Entry(client: Client, lastUsed: int, expiry: Option<int>, rejected: bool)

  /** Where a registration stands: the await it is in, or how it ended. */
  datatype Stage =
    | Cleaning
    | SigningIn
    | Queued
    | Migrating
    | Evicting
    | Installed
    | Stopping
    | Joined
    | Done(ok: bool)
    | Left(ok: bool)
  {
    predicate Building() { SigningIn? || Queued? || Migrating? || Evicting? }

    predicate Settled() { Done? || Left? }
  }

  /** `owner` is the registration whose revision this one depends on: itself, or the one it has joined. */
  datatype Registration = Registration(
    entity: string,
    serialized: string,
    room: Option<string>,
    expiry: Option<int>,
    owner: nat,
    built: bool,
    stage: Stage)

  datatype Event =
    | Registers(entity: string, serialized: string, room: Option<string>, expiry: Option<int>, now: int, current: bool, theirs: bool)
    | Cleaned(reg: nat, created: bool, current: bool)
    | SignedIn(reg: nat, ok: bool, current: bool)
    | JobRuns(reg: nat, ok: bool, current: bool)
    | Migrated(reg: nat, ok: bool, current: bool, now: int, victim: Option<string>)
    | Evicted(reg: nat, current: bool, now: int)
    | Binds(reg: nat, current: bool)
    | Stops(reg: nat)
    | Leaves(reg: nat)
    | Joins(reg: nat, current: bool)
    | Disconnects(entity: string)
    | Uses(entity: string, now: int, usable: bool)
    | BindsRoom(entity: string, target: string, now: int, usable: bool)
    | Rejects(reg: nat)

  function Without(rooms: map<string, string>, entity: string): map<string, string> {
    map room | room in rooms && rooms[room] != entity :: rooms[room]
  }

  datatype Registry = Registry(
    maxClients: int,
    given: set<string>,
    entries: map<string, Entry>,
    rooms: map<string, string>,
    pending: map<string, nat>,
    revisions: map<string, nat>,
    prebuilt: set<string>,
    regs: map<nat, Registration>,
    stopped: set<Client>)
  {
    /** The revision that registration `r` started, or joined, is still the present one. */
    predicate Live(r: nat)
      requires r in regs
    {
      regs[r].entity in revisions && revisions[regs[r].entity] == regs[r].owner
    }

    function Move(r: nat, stage: Stage): Registry
      requires r in regs
    {
      this.(regs := regs[r := regs[r].(stage := stage)])
    }

    /** The catch block of _buildEntry, up to its await. */
    function Fail(r: nat): Registry
      requires r in regs
    {
      Move(r, Stopping).(stopped := stopped + {Built(r)})
    }

    function MapRoom(room: Option<string>, entity: string): Registry {
      if room.Some? then this.(rooms := rooms[room.value := entity]) else this
    }

    function Held(entity: string): set<Client> {
      (if entity in entries then {entries[entity].client} else {}) +
      (if entity in pending && pending[entity] in regs && regs[pending[entity]].built then {Built(pending[entity])} else {})
    }

    /** disconnectEntity, up to its await, in turn `turn`. */
    function Disconnect(entity: string, turn: nat): Registry {
      this.(revisions := revisions[entity := turn],
            entries := entries - {entity},
            pending := pending - {entity},
            prebuilt := prebuilt - {entity},
            rooms := Without(rooms, entity),
            stopped := stopped + Held(entity))
    }

    /** registerDelegation, up to its first await. */
    function Register(entity: string, serialized: string, room: Option<string>, expiry: Option<int>, now: int, current: bool, theirs: bool, turn: nat): Registry {
      if !current then this
      else if entity in entries && entity in prebuilt then
        this.(entries := entries[entity := entries[entity].(lastUsed := now)]).MapRoom(room, entity)
      else if entity in pending && pending[entity] in regs && regs[pending[entity]].serialized == serialized && Live(pending[entity]) && theirs then
        this.(regs := regs[turn := Registration(entity, serialized, room, expiry, pending[entity], false, Joined)])
      else
        Disconnect(entity, turn).(pending := pending[entity := turn],
                            regs := regs[turn := Registration(entity, serialized, room, expiry, turn, false, Cleaning)])
    }

    /** The old client is gone: create the new one and sign it in. */
    function Clean(r: nat, created: bool, current: bool): Registry
      requires r in regs
    {
      if Live(r) && current && created then this.(regs := regs[r := regs[r].(stage := SigningIn, built := true)])
      else Move(r, Done(false))
    }

    /** An await of _buildEntry ends: go on if it succeeded and the registration still owns its entity. */
    function Step(r: nat, ok: bool, current: bool, next: Stage): Registry
      requires r in regs
    {
      if ok && Live(r) && current then Move(r, next) else Fail(r)
    }

    function Install(r: nat, now: int): Registry
      requires r in regs
    {
      Move(r, Installed).(entries := entries[regs[r].entity := Entry(Built(r), now, regs[r].expiry, false)])
    }

    function Evict(entity: string): Registry {
      if entity !in entries then this
      else this.(entries := entries - {entity}, rooms := Without(rooms, entity), stopped := stopped + {entries[entity].client})
    }

    predicate LeastRecent(entity: string) {
      entity in entries && forall other | other in entries :: entries[entity].lastUsed <= entries[other].lastUsed
    }

    /** The schema is in place: install at once, or evict the least recently used entry and await its stop. */
    function Migrate(r: nat, ok: bool, current: bool, now: int, victim: Option<string>): Registry
      requires r in regs
    {
      if !(ok && Live(r) && current) then Fail(r)
      else if |entries| < maxClients then Install(r, now)
      else (if victim.Some? then Evict(victim.value) else this).Move(r, Evicting)
    }

    function FinishEvict(r: nat, current: bool, now: int): Registry
      requires r in regs
    {
      if Live(r) && current then Install(r, now) else Fail(r)
    }

    function Bind(r: nat, current: bool): Registry
      requires r in regs
    {
      if Live(r) && current then MapRoom(regs[r].room, regs[r].entity).Move(r, Done(true)) else Move(r, Done(false))
    }

    function Leave(r: nat): Registry
      requires r in regs && regs[r].stage.Done?
    {
      var e := regs[r].entity;
      Move(r, Left(regs[r].stage.ok)).(pending := if e in pending && pending[e] == r then pending - {e} else pending)
    }

    /** A caller that joined another's registration, after that has settled. */
    function Join(r: nat, current: bool): Registry
      requires r in regs && regs[r].owner in regs && regs[regs[r].owner].stage.Settled()
    {
      if regs[regs[r].owner].stage.ok && Live(r) && current then MapRoom(regs[r].room, regs[r].entity).Move(r, Left(true))
      else Move(r, Left(false))
    }

    /** clientFor: touch the entry, or evict it when its grant has expired or was rejected. */
    function Use(entity: string, now: int, usable: bool): Registry {
      if entity !in entries || !usable then this
      else if Spent(entity, now) then Evict(entity)
      else this.(entries := entries[entity := entries[entity].(lastUsed := now)])
    }

    predicate Spent(entity: string, now: int)
      requires entity in entries
    {
      entries[entity].rejected || (entries[entity].expiry.Some? && now >= entries[entity].expiry.value)
    }

    function BindRoom(entity: string, room: string, now: int, usable: bool): Registry {
      if entity in entries && usable && !Spent(entity, now) then Use(entity, now, usable).MapRoom(Some(room), entity)
      else Use(entity, now, usable)
    }

    /** onDelegationRejected of client `r`. */
    function Reject(r: nat): Registry
      requires r in regs
    {
      var e := regs[r].entity;
      if e in entries && entries[e].client == Built(r) then this.(entries := entries[e := entries[e].(rejected := true)]) else this
    }

    predicate Possible(ev: Event) {
      match ev
      case Registers(_, _, _, _, _, _, _) => true
      case Cleaned(r, _, _) => r in regs && regs[r].stage.Cleaning?
      case SignedIn(r, _, _) => r in regs && regs[r].stage.SigningIn?
      case JobRuns(r, _, _) => r in regs && regs[r].stage.Queued?
      case Migrated(r, _, _, _, victim) =>
        && r in regs && regs[r].stage.Migrating?
        && (if |entries| < maxClients || entries == map[] then victim.None? else victim.Some? && LeastRecent(victim.value))
      case Evicted(r, _, _) => r in regs && regs[r].stage.Evicting?
      case Binds(r, _) => r in regs && regs[r].stage.Installed?
      case Stops(r) => r in regs && regs[r].stage.Stopping?
      case Leaves(r) => r in regs && regs[r].stage.Done?
      case Joins(r, _) => r in regs && regs[r].stage.Joined? && regs[r].owner in regs && regs[regs[r].owner].stage.Settled()
      case Disconnects(_) => true
      case Uses(_, _, _) => true
      case BindsRoom(_, _, _, _) => true
      case Rejects(r) => r in regs && regs[r].built
    }

    function Act(ev: Event, turn: nat): Registry
      requires Possible(ev)
    {
      match ev
      case Registers(e, serialized, room, expiry, now, current, theirs) => Register(e, serialized, room, expiry, now, current, theirs, turn)
      case Cleaned(r, created, current) => Clean(r, created, current)
      case SignedIn(r, ok, current) => Step(r, ok, current, Queued)
      case JobRuns(r, ok, current) => Step(r, ok, current, Migrating)
      case Migrated(r, ok, current, now, victim) => Migrate(r, ok, current, now, victim)
      case Evicted(r, current, now) => FinishEvict(r, current, now)
      case Binds(r, current) => Bind(r, current)
      case Stops(r) => Move(r, Done(false))
      case Leaves(r) => Leave(r)
      case Joins(r, current) => Join(r, current)
      case Disconnects(e) => Disconnect(e, turn)
      case Uses(e, now, usable) => Use(e, now, usable)
      case BindsRoom(e, target, now, usable) => BindRoom(e, target, now, usable)
      case Rejects(r) => Reject(r)
    }
  }

  /**
    A registration that has joined another shares its revision. One that builds a client owns its
    entity while it is live, with nothing installed; once it is overtaken, its client has been told to
    stop. A client that is no longer being built is installed or has been told to stop.
   */
  ghost predicate RegValid(s: Registry, r: nat)
    requires r in s.regs
  {
    var g := s.regs[r];
    && g.owner in s.regs && s.regs[g.owner].entity == g.entity && s.regs[g.owner].owner == g.owner
    && (g.owner != r ==> !g.built && (g.stage.Joined? || g.stage.Left?))
    && (g.owner == r ==> !g.stage.Joined?)
    && (g.stage.Building() || g.stage.Stopping? || g.stage.Installed? ==> g.built)
    && (g.stage.Cleaning? ==> !g.built)
    && (s.Live(r) && (g.stage.Cleaning? || g.stage.Building()) ==> g.entity in s.pending && s.pending[g.entity] == r && g.entity !in s.entries)
    && (s.Live(r) && g.stage.Building() ==> Built(r) !in s.stopped)
    && (!s.Live(r) && g.built ==> Built(r) in s.stopped)
    && (g.built && !g.stage.Building() ==> Built(r) in s.stopped || (g.entity in s.entries && s.entries[g.entity].client == Built(r)))
  }

  /** An installed client has never been told to stop, and belongs to the present revision. */
  ghost predicate EntryValid(s: Registry, e: string)
    requires e in s.entries
  {
    && s.entries[e].client !in s.stopped
    && match s.entries[e].client
       case Given(x) => x == e && e in s.given && e !in s.revisions
       case Built(r) => r in s.regs && s.regs[r].entity == e && s.regs[r].owner == r && s.Live(r) && s.regs[r].built && !s.regs[r].stage.Building()
                        && e !in s.prebuilt
  }

  ghost predicate PendingValid(s: Registry, e: string)
    requires e in s.pending
  {
    var r := s.pending[e];
    r in s.regs && s.regs[r].entity == e && s.regs[r].owner == r && s.Live(r) && !s.regs[r].stage.Left?
  }

  ghost predicate Inv(s: Registry) {
    && (forall r {:trigger RegValid(s, r)} | r in s.regs :: RegValid(s, r))
    && (forall e {:trigger EntryValid(s, e)} | e in s.entries :: EntryValid(s, e))
    && (forall e {:trigger PendingValid(s, e)} | e in s.pending :: PendingValid(s, e))
    && (forall e {:trigger Given(e)} | e in s.given && Given(e) !in s.stopped :: e in s.entries && s.entries[e].client == Given(e))
    && (forall e {:trigger e in s.prebuilt} | e in s.prebuilt :: e !in s.revisions)
    && (forall r {:trigger Built(r)} | Built(r) in s.stopped :: r in s.regs && s.regs[r].built)
  }

  /** Turn `n` has not named anything yet. */
  ghost predicate Fresh(s: Registry, n: nat) {
    && (forall r {:trigger s.regs[r]} | r in s.regs :: r < n)
    && (forall e {:trigger s.revisions[e]} | e in s.revisions :: s.revisions[e] < n)
  }

  /** A registration is not disturbed by a turn that leaves its entity's revision, its clients and itself alone. */
  lemma RegKept(s: Registry, t: Registry, r: nat)
    requires r in s.regs && RegValid(s, r)
    requires r in t.regs && t.regs[r] == s.regs[r]
    requires s.regs[r].owner in t.regs && t.regs[s.regs[r].owner].entity == s.regs[r].entity && t.regs[s.regs[r].owner].owner == s.regs[r].owner
    requires t.Live(r) == s.Live(r) && (Built(r) in t.stopped <==> Built(r) in s.stopped)
    requires var e := s.regs[r].entity;
      && (s.Live(r) && e in s.pending && s.pending[e] == r ==> e in t.pending && t.pending[e] == r)
      && (e in t.entries ==> e in s.entries && t.entries[e].client == s.entries[e].client)
      && (e in s.entries && s.entries[e].client == Built(r) ==> e in t.entries && t.entries[e].client == Built(r))
    ensures RegValid(t, r)
  {
  }

  lemma DisconnectReg(s: Registry, e: string, n: nat, r: nat)
    requires Inv(s) && Fresh(s, n) && r in s.regs
    ensures RegValid(s.Disconnect(e, n), r)
  {
    var t := s.Disconnect(e, n);
    assert RegValid(s, r) && RegValid(s, s.regs[r].owner);
    if s.regs[r].entity != e {
      if e in s.entries { assert EntryValid(s, e); }
      if e in s.pending { assert PendingValid(s, e); }
      RegKept(s, t, r);
    } else {
      assert s.regs[s.regs[r].owner].owner < n;
      assert !t.Live(r);
    }
  }

  lemma DisconnectEntry(s: Registry, e: string, n: nat, f: string)
    requires Inv(s) && f in s.entries && f != e
    ensures EntryValid(s.Disconnect(e, n), f)
  {
    assert EntryValid(s, f);
    if e in s.entries { assert EntryValid(s, e); }
    if e in s.pending { assert PendingValid(s, e); }
  }

  lemma DisconnectKeepsInv(s: Registry, e: string, n: nat)
    requires Inv(s) && Fresh(s, n)
    ensures Inv(s.Disconnect(e, n))
  {
    var t := s.Disconnect(e, n);
    forall r | r in t.regs ensures RegValid(t, r) { DisconnectReg(s, e, n, r); }
    forall f | f in t.entries ensures EntryValid(t, f) { DisconnectEntry(s, e, n, f); }
    forall f | f in t.pending ensures PendingValid(t, f) { assert PendingValid(s, f); }
    if e in s.entries { assert EntryValid(s, e); }
  }

  /** The room map does not matter to the invariant. */
  lemma RoomsKeepInv(s: Registry, t: Registry)
    requires Inv(s) && t == s.(rooms := t.rooms)
    ensures Inv(t)
  {
    forall r | r in t.regs ensures RegValid(t, r) { assert RegValid(s, r); }
    forall f | f in t.entries ensures EntryValid(t, f) { assert EntryValid(s, f); }
    forall f | f in t.pending ensures PendingValid(t, f) { assert PendingValid(s, f); }
  }

  /** Neither does anything in an entry but its client. */
  lemma TouchKeepsInv(s: Registry, e: string, entry: Entry)
    requires Inv(s) && e in s.entries && entry.client == s.entries[e].client
    ensures Inv(s.(entries := s.entries[e := entry]))
  {
    var t := s.(entries := s.entries[e := entry]);
    forall r | r in t.regs ensures RegValid(t, r) { assert RegValid(s, r); }
    forall f | f in t.entries ensures EntryValid(t, f) { assert EntryValid(s, f); }
    forall f | f in t.pending ensures PendingValid(t, f) { assert PendingValid(s, f); }
  }

  lemma EvictKeepsInv(s: Registry, e: string)
    requires Inv(s)
    ensures Inv(s.Evict(e))
  {
    if e in s.entries {
      var t := s.Evict(e);
      assert EntryValid(s, e);
      forall r | r in t.regs ensures RegValid(t, r) { assert RegValid(s, r); }
      forall f | f in t.entries ensures EntryValid(t, f) { assert EntryValid(s, f); }
      forall f | f in t.pending ensures PendingValid(t, f) { assert PendingValid(s, f); }
    }
  }

  /** A registration moves on: what its new stage promises must hold already. */
  lemma MoveKeepsInv(s: Registry, r: nat, stage: Stage)
    requires Inv(s) && r in s.regs && stage != Joined && stage != Cleaning
    requires s.regs[r].owner != r ==> stage.Left?
    requires stage.Building() ==> s.regs[r].stage.Building()
    requires stage.Stopping? || stage.Installed? ==> s.regs[r].built
    requires s.regs[r].built && !stage.Building() ==>
      Built(r) in s.stopped || (s.regs[r].entity in s.entries && s.entries[s.regs[r].entity].client == Built(r))
    requires stage.Left? ==> s.regs[r].entity !in s.pending || s.pending[s.regs[r].entity] != r
    ensures Inv(s.Move(r, stage))
  {
    var t := s.Move(r, stage);
    forall q | q in t.regs ensures RegValid(t, q) { assert RegValid(s, q); }
    forall f | f in t.entries ensures EntryValid(t, f) { assert EntryValid(s, f); }
    forall f | f in t.pending ensures PendingValid(t, f) { assert PendingValid(s, f); }
  }

  /** The client of a registration that is building is told to stop. */
  lemma FailKeepsInv(s: Registry, r: nat)
    requires Inv(s) && r in s.regs && s.regs[r].stage.Building()
    ensures Inv(s.Fail(r))
  {
    var t := s.Fail(r);
    forall q | q in t.regs ensures RegValid(t, q) { assert RegValid(s, q); }
    forall f | f in t.entries ensures EntryValid(t, f) { assert EntryValid(s, f); }
    forall f | f in t.pending ensures PendingValid(t, f) { assert PendingValid(s, f); }
  }

  lemma InstallKeepsInv(s: Registry, r: nat, now: int)
    requires Inv(s) && r in s.regs && s.regs[r].stage.Building() && s.Live(r)
    ensures Inv(s.Install(r, now)) && s.regs[r].entity !in s.entries
  {
    var t := s.Install(r, now);
    assert RegValid(s, r);
    forall q | q in t.regs ensures RegValid(t, q) { assert RegValid(s, q); }
    forall f | f in t.entries ensures EntryValid(t, f) { if f in s.entries { assert EntryValid(s, f); } }
    forall f | f in t.pending ensures PendingValid(t, f) { assert PendingValid(s, f); }
  }

  lemma CleanKeepsInv(s: Registry, r: nat, created: bool, current: bool)
    requires Inv(s) && r in s.regs && s.regs[r].stage.Cleaning?
    ensures Inv(s.Clean(r, created, current))
  {
    assert RegValid(s, r);
    if s.Live(r) && current && created {
      var t := s.Clean(r, created, current);
      forall q | q in t.regs ensures RegValid(t, q) { assert RegValid(s, q); }
      forall f | f in t.entries ensures EntryValid(t, f) { assert EntryValid(s, f); }
      forall f | f in t.pending ensures PendingValid(t, f) { assert PendingValid(s, f); }
    } else {
      MoveKeepsInv(s, r, Done(false));
    }
  }

  lemma LeaveKeepsInv(s: Registry, r: nat)
    requires Inv(s) && r in s.regs && s.regs[r].stage.Done?
    ensures Inv(s.Leave(r))
  {
    var e := s.regs[r].entity;
    assert RegValid(s, r);
    var t := s.(pending := if e in s.pending && s.pending[e] == r then s.pending - {e} else s.pending);
    forall q | q in t.regs ensures RegValid(t, q) { assert RegValid(s, q); }
    forall f | f in t.entries ensures EntryValid(t, f) { assert EntryValid(s, f); }
    forall f | f in t.pending ensures PendingValid(t, f) { assert PendingValid(s, f); }
    MoveKeepsInv(t, r, Left(s.regs[r].stage.ok));
  }

  /** A new registration of an entity that has nothing installed or pending. */
  lemma AddKeepsInv(d: Registry, e: string, n: nat, reg: Registration, pending: map<string, nat>)
    requires Inv(d) && n !in d.regs && Built(n) !in d.stopped && e !in d.entries && e in d.revisions && d.revisions[e] == n
    requires reg.entity == e && reg.owner == n && reg.stage.Cleaning? && !reg.built
    requires pending == d.pending[e := n]
    ensures Inv(d.(pending := pending, regs := d.regs[n := reg]))
  {
    var t := d.(pending := pending, regs := d.regs[n := reg]);
    forall q | q in t.regs ensures RegValid(t, q) { if q in d.regs { assert RegValid(d, q); } }
    forall f | f in t.entries ensures EntryValid(t, f) { assert EntryValid(d, f); }
    forall f | f in t.pending ensures PendingValid(t, f) { if f != e { assert PendingValid(d, f); } }
  }

  /** A new registration takes over its entity: the disconnect, then its own revision. */
  lemma StartKeepsInv(s: Registry, e: string, n: nat, reg: Registration)
    requires Inv(s) && Fresh(s, n) && reg.entity == e && reg.owner == n && reg.stage.Cleaning? && !reg.built
    ensures var d := s.Disconnect(e, n); Inv(d.(pending := s.pending[e := n], regs := d.regs[n := reg]))
  {
    DisconnectKeepsInv(s, e, n);
    var d := s.Disconnect(e, n);
    assert n !in s.regs && Built(n) !in d.stopped;
    assert s.pending[e := n] == d.pending[e := n];
    AddKeepsInv(d, e, n, reg, s.pending[e := n]);
  }

  lemma JoinStartKeepsInv(s: Registry, n: nat, reg: Registration)
    requires Inv(s) && Fresh(s, n) && reg.entity in s.pending && reg.owner == s.pending[reg.entity] && reg.stage.Joined? && !reg.built
    ensures Inv(s.(regs := s.regs[n := reg]))
  {
    var t := s.(regs := s.regs[n := reg]);
    assert n !in s.regs;
    assert PendingValid(s, reg.entity);
    forall q | q in t.regs ensures RegValid(t, q) { if q in s.regs { assert RegValid(s, q); } }
    forall f | f in t.entries ensures EntryValid(t, f) { assert EntryValid(s, f); }
    forall f | f in t.pending ensures PendingValid(t, f) { assert PendingValid(s, f); }
  }

  lemma PrebuiltKeepsInv(s: Registry, e: string, room: Option<string>, now: int)
    requires Inv(s) && e in s.entries && e in s.prebuilt
    ensures Inv(s.(entries := s.entries[e := s.entries[e].(lastUsed := now)]).MapRoom(room, e))
  {
    var t := s.(entries := s.entries[e := s.entries[e].(lastUsed := now)]);
    TouchKeepsInv(s, e, t.entries[e]);
    RoomsKeepInv(t, t.MapRoom(room, e));
  }

  lemma RegisterKeepsInv(s: Registry, e: string, serialized: string, room: Option<string>, expiry: Option<int>, now: int, current: bool, theirs: bool, n: nat)
    requires Inv(s) && Fresh(s, n)
    ensures Inv(s.Register(e, serialized, room, expiry, now, current, theirs, n))
  {
    if current {
      if e in s.entries && e in s.prebuilt {
        PrebuiltKeepsInv(s, e, room, now);
      } else if e in s.pending && s.pending[e] in s.regs && s.regs[s.pending[e]].serialized == serialized && s.Live(s.pending[e]) && theirs {
        JoinStartKeepsInv(s, n, Registration(e, serialized, room, expiry, s.pending[e], false, Joined));
      } else {
        StartKeepsInv(s, e, n, Registration(e, serialized, room, expiry, n, false, Cleaning));
      }
    }
  }

  lemma StepKeepsInv(s: Registry, r: nat, ok: bool, current: bool, next: Stage)
    requires Inv(s) && r in s.regs && s.regs[r].stage.Building() && next.Building()
    ensures Inv(s.Step(r, ok, current, next))
  {
    assert RegValid(s, r);
    if ok && s.Live(r) && current {
      MoveKeepsInv(s, r, next);
    } else {
      FailKeepsInv(s, r);
    }
  }

  lemma MigrateKeepsInv(s: Registry, ev: Event)
    requires Inv(s) && ev.Migrated? && s.Possible(ev)
    ensures Inv(s.Migrate(ev.reg, ev.ok, ev.current, ev.now, ev.victim))
  {
    if !(ev.ok && s.Live(ev.reg) && ev.current) {
      FailKeepsInv(s, ev.reg);
    } else if |s.entries| < s.maxClients {
      InstallKeepsInv(s, ev.reg, ev.now);
    } else {
      var t := if ev.victim.Some? then s.Evict(ev.victim.value) else s;
      if ev.victim.Some? { EvictKeepsInv(s, ev.victim.value); }
      assert RegValid(t, ev.reg);
      MoveKeepsInv(t, ev.reg, Evicting);
    }
  }

  lemma FinishEvictKeepsInv(s: Registry, r: nat, current: bool, now: int)
    requires Inv(s) && r in s.regs && s.regs[r].stage.Evicting?
    ensures Inv(s.FinishEvict(r, current, now))
  {
    if s.Live(r) && current {
      InstallKeepsInv(s, r, now);
    } else {
      FailKeepsInv(s, r);
    }
  }

  lemma BindKeepsInv(s: Registry, r: nat, current: bool)
    requires Inv(s) && r in s.regs && s.regs[r].stage.Installed?
    ensures Inv(s.Bind(r, current))
  {
    assert RegValid(s, r);
    var t := if s.Live(r) && current then s.MapRoom(s.regs[r].room, s.regs[r].entity) else s;
    RoomsKeepInv(s, t);
    MoveKeepsInv(t, r, Done(s.Live(r) && current));
  }

  lemma JoinKeepsInv(s: Registry, r: nat, current: bool)
    requires Inv(s) && s.Possible(Joins(r, current))
    ensures Inv(s.Join(r, current))
  {
    assert RegValid(s, r);
    var ok := s.regs[s.regs[r].owner].stage.ok && s.Live(r) && current;
    var t := if ok then s.MapRoom(s.regs[r].room, s.regs[r].entity) else s;
    RoomsKeepInv(s, t);
    if s.regs[r].entity in s.pending { assert PendingValid(s, s.regs[r].entity); }
    MoveKeepsInv(t, r, Left(ok));
  }

  lemma UseKeepsInv(s: Registry, e: string, now: int, usable: bool)
    requires Inv(s)
    ensures Inv(s.Use(e, now, usable))
  {
    if e in s.entries && usable {
      if s.Spent(e, now) {
        EvictKeepsInv(s, e);
      } else {
        TouchKeepsInv(s, e, s.entries[e].(lastUsed := now));
      }
    }
  }

  lemma RejectKeepsInv(s: Registry, r: nat)
    requires Inv(s) && r in s.regs
    ensures Inv(s.Reject(r))
  {
    var e := s.regs[r].entity;
    if e in s.entries && s.entries[e].client == Built(r) { TouchKeepsInv(s, e, s.entries[e].(rejected := true)); }
  }

  lemma BindRoomKeepsInv(s: Registry, e: string, target: string, now: int, usable: bool)
    requires Inv(s)
    ensures Inv(s.BindRoom(e, target, now, usable))
  {
    UseKeepsInv(s, e, now, usable);
    RoomsKeepInv(s.Use(e, now, usable), s.BindRoom(e, target, now, usable));
  }

  lemma CallKeepsInv(s: Registry, ev: Event, n: nat)
    requires Inv(s) && Fresh(s, n) && s.Possible(ev) && (ev.Registers? || ev.Disconnects? || ev.Uses? || ev.BindsRoom? || ev.Rejects?)
    ensures Inv(s.Act(ev, n))
  {
    match ev
    case Registers(e, serialized, room, expiry, now, current, theirs) => RegisterKeepsInv(s, e, serialized, room, expiry, now, current, theirs, n);
    case Disconnects(e) => DisconnectKeepsInv(s, e, n);
    case Uses(e, now, usable) => UseKeepsInv(s, e, now, usable);
    case BindsRoom(e, target, now, usable) => BindRoomKeepsInv(s, e, target, now, usable);
    case Rejects(r) => RejectKeepsInv(s, r);
  }

  lemma ResumeKeepsInv(s: Registry, ev: Event, n: nat)
    requires Inv(s) && s.Possible(ev)
    requires !ev.Registers? && !ev.Disconnects? && !ev.Uses? && !ev.BindsRoom? && !ev.Rejects?
    ensures Inv(s.Act(ev, n))
  {
    assert RegValid(s, ev.reg);
    match ev
    case Cleaned(r, created, current) => CleanKeepsInv(s, r, created, current);
    case SignedIn(r, ok, current) => StepKeepsInv(s, r, ok, current, Queued);
    case JobRuns(r, ok, current) => StepKeepsInv(s, r, ok, current, Migrating);
    case Migrated(r, ok, current, now, victim) => MigrateKeepsInv(s, ev);
    case Evicted(r, current, now) => FinishEvictKeepsInv(s, r, current, now);
    case Binds(r, current) => BindKeepsInv(s, r, current);
    case Stops(r) => MoveKeepsInv(s, r, Done(false));
    case Leaves(r) => LeaveKeepsInv(s, r);
    case Joins(r, current) => JoinKeepsInv(s, r, current);
  }

  lemma EventKeepsInv(s: Registry, ev: Event, n: nat)
    requires Inv(s) && Fresh(s, n) && s.Possible(ev)
    ensures Inv(s.Act(ev, n))
  {
    if ev.Registers? || ev.Disconnects? || ev.Uses? || ev.BindsRoom? || ev.Rejects? {
      CallKeepsInv(s, ev, n);
    } else {
      ResumeKeepsInv(s, ev, n);
    }
  }

  /** A registry that starts with the clients it was given. */
  predicate Begun(s: Registry) {
    && s.pending == map[] && s.revisions == map[] && s.regs == map[] && s.stopped == {}
    && s.given == s.entries.Keys == s.prebuilt
    && forall e | e in s.entries :: s.entries[e].client == Given(e)
  }

  ghost predicate Trace(states: seq<Registry>, events: seq<Event>) {
    && |states| == |events| + 1 && Begun(states[0])
    && forall i {:trigger events[i]} | 0 <= i < |events| :: states[i].Possible(events[i]) && states[i + 1] == states[i].Act(events[i], i)
  }

  lemma {:induction false} TraceInv(states: seq<Registry>, events: seq<Event>, i: nat)
    requires Trace(states, events) && i < |states|
    ensures Inv(states[i]) && Fresh(states[i], i)
  {
    if i > 0 {
      TraceInv(states, events, i - 1);
      EventKeepsInv(states[i - 1], events[i - 1], i - 1);
      TurnsOnce(states[i - 1], events[i - 1], i - 1);
    }
  }

  predicate Installed(s: Registry, c: Client) { exists e :: e in s.entries && s.entries[e].client == c }

  /**
    Over any run every client that was created is being built, installed, or has been told to stop; an
    installed one has not been told to stop; and one that is still being built after its registration
    was overtaken has been.
   */
  lemma NoClientIsLost(states: seq<Registry>, events: seq<Event>, i: nat, r: nat)
    requires Trace(states, events) && i < |states| && r in states[i].regs && states[i].regs[r].built
    ensures var s := states[i];
      && (s.regs[r].stage.Building() || Installed(s, Built(r)) || Built(r) in s.stopped)
      && !(Installed(s, Built(r)) && Built(r) in s.stopped)
      && !(Installed(s, Built(r)) && s.regs[r].stage.Building())
      && (s.regs[r].stage.Building() ==> (Built(r) in s.stopped <==> !s.Live(r)))
  {
    TraceInv(states, events, i);
    var s := states[i];
    assert RegValid(s, r);
    forall e | e in s.entries && s.entries[e].client == Built(r) ensures Built(r) !in s.stopped && !s.regs[r].stage.Building() {
      assert EntryValid(s, e);
    }
  }

  lemma NoGivenClientIsLost(states: seq<Registry>, events: seq<Event>, i: nat, e: string)
    requires Trace(states, events) && i < |states| && e in states[i].given
    ensures Given(e) in states[i].stopped <==> !Installed(states[i], Given(e))
  {
    TraceInv(states, events, i);
    var s := states[i];
    forall f | f in s.entries && s.entries[f].client == Given(e) ensures Given(e) !in s.stopped {
      assert EntryValid(s, f);
    }
  }

  predicate Concerns(ev: Event, r: nat) {
    !ev.Registers? && !ev.Disconnects? && !ev.Uses? && !ev.BindsRoom? && ev.reg == r
  }

  predicate MapsTo(s: Registry, e: string) { exists room :: room in s.rooms && s.rooms[room] == e }

  predicate RegisteredAfter(s: Registry, e: string, i: nat) { exists r :: r in s.regs && r > i && s.regs[r].entity == e }

  /** Since turn `i` the revision of `e` is at least `i`, and a room of `e` means a registration of `e` begun since. */
  ghost predicate Fenced(s: Registry, e: string, i: nat) {
    && i !in s.regs && e !in s.prebuilt
    && e in s.revisions && s.revisions[e] >= i
    && (MapsTo(s, e) ==> RegisteredAfter(s, e, i))
  }

  lemma EntryIsLater(s: Registry, e: string, i: nat)
    requires Inv(s) && Fenced(s, e, i) && e in s.entries
    ensures s.entries[e].client.Built? && s.entries[e].client.id > i && RegisteredAfter(s, e, i)
  {
    assert EntryValid(s, e);
  }

  /** A registration that is still live is later than the fence, so a room that it maps is allowed. */
  lemma LiveIsLater(s: Registry, r: nat, i: nat)
    requires Inv(s) && r in s.regs && s.Live(r) && Fenced(s, s.regs[r].entity, i)
    ensures RegisteredAfter(s, s.regs[r].entity, i)
  {
    assert RegValid(s, r);
    assert s.regs[r].owner in s.regs;
  }

  /** The registrations of `s` are still there, for the same entities. */
  predicate Grows(s: Registry, t: Registry) {
    forall r | r in s.regs :: r in t.regs && t.regs[r].entity == s.regs[r].entity && t.regs[r].owner == s.regs[r].owner
  }

  /** Registrations keep their entities and owners, and none is added. */
  ghost predicate Steady(s: Registry, t: Registry) {
    && t.regs.Keys == s.regs.Keys
    && (forall r {:trigger t.regs[r]} | r in t.regs :: t.regs[r].entity == s.regs[r].entity && t.regs[r].owner == s.regs[r].owner)
    && t.revisions == s.revisions && t.prebuilt == s.prebuilt
  }

  /** Turn `n` adds at most one registration, its own, and gives new revisions only its own name. */
  ghost predicate OneTurn(s: Registry, t: Registry, n: nat) {
    && s.regs.Keys <= t.regs.Keys
    && (forall r {:trigger t.regs[r]} | r in t.regs && r != n ::
          r in s.regs && t.regs[r].entity == s.regs[r].entity && t.regs[r].owner == s.regs[r].owner)
    && (forall e {:trigger t.revisions[e]} | e in t.revisions :: (e in s.revisions && t.revisions[e] == s.revisions[e]) || t.revisions[e] == n)
    && s.revisions.Keys <= t.revisions.Keys && t.prebuilt <= s.prebuilt
  }

  lemma CallSteady(s: Registry, e: string, room: string, now: int, usable: bool)
    ensures Steady(s, s.Use(e, now, usable)) && Steady(s, s.BindRoom(e, room, now, usable))
  {
  }

  lemma RejectSteady(s: Registry, r: nat)
    requires r in s.regs
    ensures Steady(s, s.Reject(r))
  {
  }

  lemma MoveSteady(s: Registry, r: nat, stage: Stage)
    requires r in s.regs
    ensures Steady(s, s.Move(r, stage)) && Steady(s, s.Fail(r))
  {
  }

  lemma CleanSteady(s: Registry, r: nat, created: bool, current: bool)
    requires r in s.regs
    ensures Steady(s, s.Clean(r, created, current))
  {
  }

  lemma StepSteady(s: Registry, r: nat, ok: bool, current: bool, next: Stage)
    requires r in s.regs
    ensures Steady(s, s.Step(r, ok, current, next))
  {
    MoveSteady(s, r, next);
  }

  lemma InstallSteady(s: Registry, r: nat, now: int)
    requires r in s.regs
    ensures Steady(s, s.Install(r, now))
  {
  }

  lemma MigrateSteady(s: Registry, r: nat, ok: bool, current: bool, now: int, victim: Option<string>)
    requires r in s.regs
    ensures Steady(s, s.Migrate(r, ok, current, now, victim))
  {
    if ok && s.Live(r) && current && |s.entries| < s.maxClients {
      InstallSteady(s, r, now);
    } else {
      MoveSteady(if victim.Some? then s.Evict(victim.value) else s, r, Evicting);
      MoveSteady(s, r, Evicting);
    }
  }

  lemma FinishEvictSteady(s: Registry, r: nat, current: bool, now: int)
    requires r in s.regs
    ensures Steady(s, s.FinishEvict(r, current, now))
  {
    InstallSteady(s, r, now);
    MoveSteady(s, r, Stopping);
  }

  lemma BindSteady(s: Registry, r: nat, current: bool)
    requires r in s.regs
    ensures Steady(s, s.Bind(r, current))
  {
  }

  lemma LeaveSteady(s: Registry, r: nat)
    requires r in s.regs && s.regs[r].stage.Done?
    ensures Steady(s, s.Leave(r))
  {
  }

  lemma JoinSteady(s: Registry, r: nat, current: bool)
    requires r in s.regs && s.regs[r].owner in s.regs && s.regs[s.regs[r].owner].stage.Settled()
    ensures Steady(s, s.Join(r, current))
  {
  }

  lemma ActSteady(s: Registry, ev: Event, n: nat)
    requires s.Possible(ev) && !ev.Registers? && !ev.Disconnects?
    ensures Steady(s, s.Act(ev, n))
  {
    match ev
    case Cleaned(r, created, current) => CleanSteady(s, r, created, current);
    case SignedIn(r, ok, current) => StepSteady(s, r, ok, current, Queued);
    case JobRuns(r, ok, current) => StepSteady(s, r, ok, current, Migrating);
    case Migrated(r, ok, current, now, victim) => MigrateSteady(s, r, ok, current, now, victim);
    case Evicted(r, current, now) => FinishEvictSteady(s, r, current, now);
    case Binds(r, current) => BindSteady(s, r, current);
    case Stops(r) => MoveSteady(s, r, Done(false));
    case Leaves(r) => LeaveSteady(s, r);
    case Joins(r, current) => JoinSteady(s, r, current);
    case Uses(e, now, usable) => CallSteady(s, e, "", now, usable);
    case BindsRoom(e, target, now, usable) => CallSteady(s, e, target, now, usable);
    case Rejects(r) => RejectSteady(s, r);
  }

  lemma RegistersOnce(s: Registry, ev: Event, n: nat)
    requires Fresh(s, n) && ev.Registers?
    ensures OneTurn(s, s.Act(ev, n), n)
  {
  }

  lemma TurnsOnce(s: Registry, ev: Event, n: nat)
    requires Fresh(s, n) && s.Possible(ev)
    ensures OneTurn(s, s.Act(ev, n), n) && Fresh(s.Act(ev, n), n + 1)
  {
    if ev.Registers? {
      RegistersOnce(s, ev, n);
    } else if !ev.Disconnects? {
      ActSteady(s, ev, n);
    }
  }

  lemma OnceGrows(s: Registry, t: Registry, n: nat)
    requires Fresh(s, n) && OneTurn(s, t, n)
    ensures Grows(s, t) && forall r | r in t.regs :: r in s.regs || r == n
    ensures forall e {:trigger s.revisions[e]} | e in s.revisions :: e in t.revisions && t.revisions[e] >= s.revisions[e]
  {
  }

  lemma StepAddsNoRoom(s: Registry, ev: Event, n: nat)
    requires s.Possible(ev) && (ev.Cleaned? || ev.SignedIn? || ev.JobRuns?)
    ensures s.Act(ev, n).rooms == s.rooms
  {
  }

  lemma EndAddsNoRoom(s: Registry, ev: Event, n: nat)
    requires s.Possible(ev) && (ev.Stops? || ev.Leaves? || ev.Rejects?)
    ensures s.Act(ev, n).rooms == s.rooms
  {
  }

  /** While a client is being built, and when a registration ends, rooms only disappear. */
  lemma BuildingAddsNoRoom(s: Registry, ev: Event, n: nat)
    requires s.Possible(ev)
    requires ev.Cleaned? || ev.SignedIn? || ev.JobRuns? || ev.Evicted? || ev.Stops? || ev.Leaves? || ev.Rejects?
    ensures s.Act(ev, n).rooms == s.rooms
  {
    if ev.Cleaned? || ev.SignedIn? || ev.JobRuns? {
      StepAddsNoRoom(s, ev, n);
    } else if !ev.Evicted? {
      EndAddsNoRoom(s, ev, n);
    }
  }

  lemma MigratingAddsNoRoom(s: Registry, ev: Event, n: nat, room: string)
    requires s.Possible(ev) && room in s.Act(ev, n).rooms && ev.Migrated?
    ensures room in s.rooms && s.Act(ev, n).rooms[room] == s.rooms[room]
  {
  }

  lemma RegisterAddsRoom(s: Registry, ev: Event, n: nat, room: string)
    requires ev.Registers? && room in s.Act(ev, n).rooms
    ensures || (room in s.rooms && s.Act(ev, n).rooms[room] == s.rooms[room])
            || (s.Act(ev, n).rooms[room] == ev.entity && ev.entity in s.prebuilt)
  {
  }

  lemma UseAddsNoRoom(s: Registry, e: string, now: int, usable: bool, room: string)
    requires room in s.Use(e, now, usable).rooms
    ensures room in s.rooms && s.Use(e, now, usable).rooms[room] == s.rooms[room]
  {
  }

  lemma CallAddsRoom(s: Registry, ev: Event, n: nat, room: string)
    requires s.Possible(ev) && room in s.Act(ev, n).rooms && (ev.Disconnects? || ev.Uses? || ev.BindsRoom?)
    ensures || (room in s.rooms && s.Act(ev, n).rooms[room] == s.rooms[room])
            || (ev.BindsRoom? && s.Act(ev, n).rooms[room] == ev.entity && ev.entity in s.entries)
  {
    if !ev.Disconnects? && room in s.Use(ev.entity, ev.now, ev.usable).rooms {
      UseAddsNoRoom(s, ev.entity, ev.now, ev.usable, room);
    }
  }

  /** The turns in which a room can come to map to `e`. */
  lemma NewRoom(s: Registry, ev: Event, n: nat, e: string, room: string)
    requires s.Possible(ev) && room in s.Act(ev, n).rooms && s.Act(ev, n).rooms[room] == e
    ensures || (room in s.rooms && s.rooms[room] == e)
            || ((ev.Binds? || ev.Joins?) && s.Live(ev.reg) && s.regs[ev.reg].entity == e)
            || (ev.BindsRoom? && ev.entity == e && e in s.entries)
            || (ev.Registers? && ev.entity == e && e in s.prebuilt)
  {
    if ev.Registers? {
      RegisterAddsRoom(s, ev, n, room);
    } else if ev.Disconnects? || ev.Uses? || ev.BindsRoom? {
      CallAddsRoom(s, ev, n, room);
    } else if ev.Migrated? {
      MigratingAddsNoRoom(s, ev, n, room);
    } else if !ev.Binds? && !ev.Joins? {
      BuildingAddsNoRoom(s, ev, n);
    }
  }

  lemma NewRoomIsLater(s: Registry, ev: Event, n: nat, e: string, i: nat)
    requires Inv(s) && s.Possible(ev) && Fenced(s, e, i) && !MapsTo(s, e) && MapsTo(s.Act(ev, n), e)
    ensures RegisteredAfter(s, e, i)
  {
    var room :| room in s.Act(ev, n).rooms && s.Act(ev, n).rooms[room] == e;
    NewRoom(s, ev, n, e, room);
    if ev.BindsRoom? {
      EntryIsLater(s, e, i);
    } else {
      LiveIsLater(s, ev.reg, i);
    }
  }

  lemma TurnKeepsFence(s: Registry, ev: Event, n: nat, e: string, i: nat)
    requires Inv(s) && Fresh(s, n) && i < n && s.Possible(ev) && Fenced(s, e, i)
    ensures Fenced(s.Act(ev, n), e, i)
  {
    var t := s.Act(ev, n);
    TurnsOnce(s, ev, n);
    OnceGrows(s, t, n);
    if MapsTo(t, e) {
      if !MapsTo(s, e) { NewRoomIsLater(s, ev, n, e, i); }
      var r :| r in s.regs && r > i && s.regs[r].entity == e;
      assert r in t.regs && t.regs[r].entity == e;
    }
  }

  lemma DisconnectFences(s: Registry, e: string, n: nat)
    requires Inv(s) && Fresh(s, n)
    ensures Fenced(s.Disconnect(e, n), e, n)
  {
  }

  lemma FenceStarts(states: seq<Registry>, events: seq<Event>, i: nat, e: string)
    requires Trace(states, events) && i < |events| && events[i] == Disconnects(e)
    ensures Fenced(states[i + 1], e, i)
  {
    TraceInv(states, events, i);
    DisconnectFences(states[i], e, i);
    assert states[i + 1] == states[i].Act(events[i], i);
  }

  lemma FenceGoesOn(states: seq<Registry>, events: seq<Event>, i: nat, j: nat, e: string)
    requires Trace(states, events) && i < j < |events| && Fenced(states[j], e, i)
    ensures Fenced(states[j + 1], e, i)
  {
    TraceInv(states, events, j);
    TurnKeepsFence(states[j], events[j], j, e, i);
    assert states[j + 1] == states[j].Act(events[j], j);
  }

  lemma {:induction false} FenceHolds(states: seq<Registry>, events: seq<Event>, i: nat, j: nat, e: string)
    requires Trace(states, events) && i < |events| && events[i] == Disconnects(e) && i < j < |states|
    ensures Fenced(states[j], e, i)
    decreases j
  {
    if j == i + 1 {
      FenceStarts(states, events, i, e);
    } else {
      FenceHolds(states, events, i, j - 1, e);
      FenceGoesOn(states, events, i, j - 1, e);
    }
  }

  /**
    After disconnectEntity(e), whatever client is installed for e was built by a registration begun
    since, and a room maps to e only if there has been such a registration.
   */
  lemma DisconnectHolds(states: seq<Registry>, events: seq<Event>, i: nat, j: nat, e: string)
    requires Trace(states, events) && i < |events| && events[i] == Disconnects(e) && i < j < |states|
    ensures e in states[j].entries ==> states[j].entries[e].client.Built? && states[j].entries[e].client.id > i
    ensures MapsTo(states[j], e) ==> RegisteredAfter(states[j], e, i)
  {
    TraceInv(states, events, j);
    FenceHolds(states, events, i, j, e);
    if e in states[j].entries {
      EntryIsLater(states[j], e, i);
    }
  }

  lemma RegStaysOne(states: seq<Registry>, events: seq<Event>, j: nat)
    requires Trace(states, events) && j < |events|
    ensures Grows(states[j], states[j + 1])
  {
    TraceInv(states, events, j);
    TurnsOnce(states[j], events[j], j);
    OnceGrows(states[j], states[j].Act(events[j], j), j);
  }

  lemma {:induction false} RegStays(states: seq<Registry>, events: seq<Event>, i: nat, j: nat)
    requires Trace(states, events) && i <= j < |states|
    ensures Grows(states[i], states[j])
    decreases j
  {
    if i < j {
      RegStays(states, events, i, j - 1);
      RegStaysOne(states, events, j - 1);
    }
  }

  /** An overtaken registration whose client is not installed changes no entry and no room. */
  lemma OvertakenStep(s: Registry, ev: Event, n: nat, r: nat)
    requires s.Possible(ev) && r in s.regs && Concerns(ev, r) && !s.Live(r)
    requires s.regs[r].entity in s.entries ==> s.entries[s.regs[r].entity].client != Built(r)
    ensures s.Act(ev, n).entries == s.entries && s.Act(ev, n).rooms == s.rooms
  {
  }

  /** A registration of e begun before a disconnect, a coalesced one included, changes no entry and no room after it. */
  lemma OvertakenInstallsNothing(states: seq<Registry>, events: seq<Event>, i: nat, j: nat, r: nat)
    requires Trace(states, events) && i < j < |events| && r in states[i].regs
    requires events[i] == Disconnects(states[i].regs[r].entity) && Concerns(events[j], r)
    ensures states[j + 1].entries == states[j].entries && states[j + 1].rooms == states[j].rooms
  {
    var e := states[i].regs[r].entity;
    TraceInv(states, events, i);
    assert RegValid(states[i], r) && RegValid(states[i], states[i].regs[r].owner);
    TraceInv(states, events, j);
    FenceHolds(states, events, i, j, e);
    RegStays(states, events, i, j);
    if e in states[j].entries { EntryIsLater(states[j], e, i); }
    OvertakenStep(states[j], events[j], j, r);
  }

  // ── What a registration that is not overtaken does ─────────────────────────

  /** The await that this turn ends has succeeded, and the registration still owns its entity. */
  predicate Holds(s: Registry, ev: Event, r: nat)
    requires r in s.regs
  {
    s.Live(r) && match ev
    case Cleaned(_, created, current) => created && current
    case SignedIn(_, ok, current) => ok && current
    case JobRuns(_, ok, current) => ok && current
    case Migrated(_, ok, current, _, _) => ok && current
    case Evicted(_, current, _) => current
    case Binds(_, current) => current
    case _ => false
  }

  /** What follows on each await. */
  function Following(s: Registry, ev: Event): Stage {
    match ev
    case Cleaned(_, _, _) => SigningIn
    case SignedIn(_, _, _) => Queued
    case JobRuns(_, _, _) => Migrating
    case Migrated(_, _, _, _, _) => if |s.entries| < s.maxClients then Stage.Installed else Evicting
    case Evicted(_, _, _) => Stage.Installed
    case _ => Done(true)
  }

  predicate Builds(ev: Event, r: nat) {
    (ev.Cleaned? || ev.SignedIn? || ev.JobRuns? || ev.Migrated? || ev.Evicted? || ev.Binds?) && ev.reg == r
  }

  /** A registration goes on to its next await exactly while it owns its entity and nothing has failed; otherwise its client, if it has one, is told to stop. */
  lemma GoesOnIff(s: Registry, ev: Event, n: nat, r: nat)
    requires Inv(s) && s.Possible(ev) && Builds(ev, r)
    ensures r in s.Act(ev, n).regs
    ensures s.Act(ev, n).regs[r].stage == Following(s, ev) <==> Holds(s, ev, r)
    ensures !Holds(s, ev, r) && s.regs[r].stage.Building() ==> s.Act(ev, n).regs[r].stage.Stopping? && Built(r) in s.Act(ev, n).stopped
    ensures !Holds(s, ev, r) && !s.regs[r].stage.Building() ==> s.Act(ev, n).regs[r].stage == Done(false)
  {
    match ev
    case Cleaned(_, created, current) =>
    case SignedIn(_, ok, current) =>
    case JobRuns(_, ok, current) =>
    case Migrated(_, ok, current, now, victim) =>
    case Evicted(_, current, now) =>
    case Binds(_, current) =>
  }

  /** A client is installed exactly when its registration holds and there is room, or room has been made; it replaces nothing of its entity. */
  lemma InstallsIff(s: Registry, ev: Event, n: nat, r: nat)
    requires Inv(s) && s.Possible(ev) && Builds(ev, r) && s.regs[r].stage.Building()
    ensures var t, e := s.Act(ev, n), s.regs[r].entity;
      && (e in t.entries && t.entries[e].client == Built(r) <==>
            Holds(s, ev, r) && (ev.Evicted? || (ev.Migrated? && |s.entries| < s.maxClients)))
      && (e in t.entries && t.entries[e].client == Built(r) ==>
            e !in s.entries && t.entries == s.entries[e := Entry(Built(r), ev.now, s.regs[r].expiry, false)])
  {
    assert RegValid(s, r);
    if s.regs[r].entity in s.entries { assert EntryValid(s, s.regs[r].entity); }
    match ev
    case SignedIn(_, ok, current) =>
    case JobRuns(_, ok, current) =>
    case Migrated(_, ok, current, now, victim) =>
    case Evicted(_, current, now) =>
  }

  /** The registration that this one joined has succeeded, and both still own their entity. */
  predicate JoinHolds(s: Registry, ev: Event)
    requires s.Possible(ev) && ev.Joins?
  {
    s.regs[s.regs[ev.reg].owner].stage.ok && s.Live(ev.reg) && ev.current
  }

  /** The room that a turn asks for, and the entity it asks it for, where the turn may. */
  function Asked(s: Registry, ev: Event): Option<(string, string)>
    requires s.Possible(ev)
  {
    match ev
    case Registers(e, _, room, _, _, current, _) =>
      if room.Some? && current && e in s.entries && e in s.prebuilt then Some((room.value, e)) else None
    case Binds(r, _) => if s.regs[r].room.Some? && Holds(s, ev, r) then Some((s.regs[r].room.value, s.regs[r].entity)) else None
    case Joins(r, _) => if s.regs[r].room.Some? && JoinHolds(s, ev) then Some((s.regs[r].room.value, s.regs[r].entity)) else None
    case BindsRoom(e, target, now, usable) =>
      if e in s.entries && usable && !s.entries[e].rejected && (s.entries[e].expiry.Some? ==> now < s.entries[e].expiry.value) then Some((target, e)) else None
    case _ => None
  }

  lemma CallMapsRoom(s: Registry, ev: Event, n: nat)
    requires s.Possible(ev) && (ev.Registers? || ev.BindsRoom?) && Asked(s, ev).Some?
    ensures var (room, e) := Asked(s, ev).value; room in s.Act(ev, n).rooms && s.Act(ev, n).rooms[room] == e
  {
  }

  lemma EndMapsRoom(s: Registry, ev: Event, n: nat)
    requires s.Possible(ev) && (ev.Binds? || ev.Joins?) && Asked(s, ev).Some?
    ensures var (room, e) := Asked(s, ev).value; room in s.Act(ev, n).rooms && s.Act(ev, n).rooms[room] == e
  {
  }

  /** A turn that may map a room does, to the entity that asked. */
  lemma AskedIsMapped(s: Registry, ev: Event, n: nat)
    requires s.Possible(ev) && Asked(s, ev).Some?
    ensures var (room, e) := Asked(s, ev).value; room in s.Act(ev, n).rooms && s.Act(ev, n).rooms[room] == e
  {
    if ev.Registers? || ev.BindsRoom? {
      CallMapsRoom(s, ev, n);
    } else {
      EndMapsRoom(s, ev, n);
    }
  }

  /** A use evicts the entry exactly when its grant was rejected or has expired, and otherwise only touches it. */
  lemma UseIff(s: Registry, e: string, now: int, usable: bool, n: nat)
    requires e in s.entries && usable
    ensures var t, entry := s.Act(Uses(e, now, usable), n), s.entries[e];
      && (e in t.entries <==> !entry.rejected && (entry.expiry.Some? ==> now < entry.expiry.value))
      && (e in t.entries ==> t == s.(entries := s.entries[e := entry.(lastUsed := now)]))
      && (e !in t.entries ==> t.entries == s.entries - {e} && entry.client in t.stopped && forall room | room in t.rooms :: t.rooms[room] != e)
  {
  }

  /** Once the session of an installed client has rejected its grant, the next use evicts it; a client that is not installed is left to its registration. */
  lemma RejectIff(s: Registry, r: nat, now: int, n: nat)
    requires s.Possible(Rejects(r)) && s.regs[r].entity in s.entries
    ensures var t, e := s.Act(Rejects(r), n), s.regs[r].entity;
      && e in t.entries
      && (s.entries[e].client == Built(r) ==> e !in t.Act(Uses(e, now, true), n).entries)
      && (s.entries[e].client != Built(r) ==> t == s)
  {
  }

  /** A registration joins the one under way exactly when that has the same grant, still owns the entity and its caller is current; else it overtakes what there is. */
  lemma RegisterIff(s: Registry, ev: Event, n: nat)
    requires s.Possible(ev) && ev.Registers? && n !in s.regs
    ensures var t, e := s.Act(ev, n), ev.entity; var served := e in s.entries && e in s.prebuilt;
      var under := e in s.pending && s.pending[e] in s.regs && s.regs[s.pending[e]].serialized == ev.serialized && s.Live(s.pending[e]) && ev.theirs;
      && (n in t.regs <==> ev.current && !served)
      && (n in t.regs && t.regs[n].stage.Joined? <==> ev.current && !served && under)
      && (n in t.regs && t.regs[n].stage.Joined? ==> t == s.(regs := t.regs) && t.regs[n].owner == s.pending[e])
      && (n in t.regs && t.regs[n].stage.Cleaning? <==> ev.current && !served && !under)
      && (n in t.regs && t.regs[n].stage.Cleaning? ==> t.Live(n) && e in t.pending && t.pending[e] == n && e !in t.entries && s.Held(e) <= t.stopped)
  {
  }

  lemma InstallCounts(s: Registry, r: nat, now: int)
    requires Inv(s) && r in s.regs && s.regs[r].stage.Building() && s.Live(r)
    ensures |s.Install(r, now).entries| == |s.entries| + 1
  {
    InstallKeepsInv(s, r, now);
  }

  lemma EvictCounts(s: Registry, e: string)
    requires e in s.entries
    ensures |s.Evict(e).entries| == |s.entries| - 1
  {
  }

  lemma MigratedStaysWithin(s: Registry, ev: Event, n: nat)
    requires Inv(s) && s.Possible(ev) && ev.Migrated? && |s.entries| <= s.maxClients
    ensures |s.Act(ev, n).entries| <= s.maxClients
  {
    if ev.ok && s.Live(ev.reg) && ev.current {
      if |s.entries| < s.maxClients { InstallCounts(s, ev.reg, ev.now); }
      else if ev.victim.Some? { EvictCounts(s, ev.victim.value); }
    }
  }

  /**
    A turn takes the registry from within its bound to beyond it exactly when it installs after the
    await of an eviction while the freed slot has been filled by another.
   */
  lemma BoundBreaksIff(s: Registry, ev: Event, n: nat)
    requires Inv(s) && s.Possible(ev) && |s.entries| <= s.maxClients
    ensures |s.Act(ev, n).entries| > s.maxClients <==>
            ev.Evicted? && s.Live(ev.reg) && ev.current && |s.entries| == s.maxClients
  {
    if ev.Registers? || ev.Disconnects? || ev.Uses? || ev.BindsRoom? || ev.Rejects? {
      NotLarger(s, ev, n);
    } else if ev.Migrated? {
      MigratedStaysWithin(s, ev, n);
    } else if ev.Evicted? && s.Live(ev.reg) && ev.current {
      InstallCounts(s, ev.reg, ev.now);
    }
  }

  lemma NotLarger(s: Registry, ev: Event, n: nat)
    requires s.Possible(ev) && (ev.Registers? || ev.Disconnects? || ev.Uses? || ev.BindsRoom? || ev.Rejects?)
    ensures |s.Act(ev, n).entries| <= |s.entries|
  {
    assert s.Act(ev, n).entries.Keys <= s.entries.Keys;
    SubsetSize(s.Act(ev, n).entries.Keys, s.entries.Keys);
    assert |s.Act(ev, n).entries.Keys| == |s.Act(ev, n).entries| && |s.entries.Keys| == |s.entries|;
  }

  /** Two registrations that reach the bound together: both find a slot, and maxClients is exceeded. */
  lemma BoundCanBreak(s: Registry, n: nat, a: nat, b: nat, victim: string, now: int)
    requires Inv(s) && |s.entries| == s.maxClients && s.LeastRecent(victim)
    requires a in s.regs && b in s.regs && s.regs[a].entity != s.regs[b].entity
    requires s.regs[a].stage.Migrating? && s.regs[b].stage.Migrating? && s.Live(a) && s.Live(b)
    ensures
      var first, second, third := Migrated(a, true, true, now, Some(victim)), Migrated(b, true, true, now, None), Evicted(a, true, now);
      && s.Possible(first) && s.Act(first, n).Possible(second) && s.Act(first, n).Act(second, n + 1).Possible(third)
      && |s.Act(first, n).Act(second, n + 1).Act(third, n + 2).entries| == s.maxClients + 1
  {
    var first := Migrated(a, true, true, now, Some(victim));
    MigrateKeepsInv(s, first);
    var t := s.Act(first, n);
    EvictCounts(s, victim);
    assert |t.entries| == s.maxClients - 1 && t.Live(b) && t.regs[b] == s.regs[b];
    SecondAndThird(t, n + 1, a, b, now);
  }

  lemma SecondAndThird(t: Registry, n: nat, a: nat, b: nat, now: int)
    requires Inv(t) && |t.entries| == t.maxClients - 1
    requires a in t.regs && b in t.regs && t.regs[a].entity != t.regs[b].entity
    requires t.regs[a].stage.Evicting? && t.regs[b].stage.Migrating? && t.Live(a) && t.Live(b)
    ensures var second, third := Migrated(b, true, true, now, None), Evicted(a, true, now);
      t.Possible(second) && t.Act(second, n).Possible(third) && |t.Act(second, n).Act(third, n + 1).entries| == t.maxClients + 1
  {
    var second := Migrated(b, true, true, now, None);
    MigrateKeepsInv(t, second);
    InstallCounts(t, b, now);
    var u := t.Act(second, n);
    assert u.Live(a) && u.regs[a] == t.regs[a];
    InstallCounts(u, a, now);
  }

  /** One turn of a run. */
  function Turn(): (Registry, Event, nat, Registry) -> bool {
    (s: Registry, ev: Event, n: nat, t: Registry) => s.Possible(ev) && s.Act(ev, n) == t
  }

  /** A relation that every turn of the registry is in. */
  ghost predicate Includes(turn: (Registry, Event, nat, Registry) -> bool) {
    forall s: Registry, ev, n: nat {:trigger s.Act(ev, n)} | s.Possible(ev) :: turn(s, ev, n, s.Act(ev, n))
  }

  lemma ChainIsTrace(states: seq<Registry>, events: seq<Event>)
    requires Chain(states, events, 0, Turn()) && Begun(states[0])
    ensures Trace(states, events)
  {
    forall i {:trigger events[i]} | 0 <= i < |events| ensures states[i].Possible(events[i]) && states[i + 1] == states[i].Act(events[i], i) {
      assert Turn()(states[i], events[i], 0 + i, states[i + 1]);
    }
  }

  /** The registration that turn `n` has begun for `e`. */
  function Begins(s: Registry, e: string, n: nat, built: bool, stage: Stage): Registry {
    s.(pending := s.pending[e := n], revisions := s.revisions[e := n], regs := s.regs[n := Registration(e, "", None, None, n, built, stage)])
  }

  lemma Restaged(s: Registry, e: string, n: nat, was: bool, stage: Stage, built: bool, next: Stage)
    ensures var t := Begins(s, e, n, was, stage);
      && t.Live(n) && t.(regs := t.regs[n := t.regs[n].(stage := next, built := built)]) == Begins(s, e, n, built, next)
  {
    UpdateTwice(s.regs, n, Registration(e, "", None, None, n, was, stage), Registration(e, "", None, None, n, built, next));
  }

  lemma ConnectStarts(s: Registry, e: string, n: nat)
    requires e !in s.entries && e !in s.pending && e !in s.prebuilt && s.rooms == map[]
    ensures s.Act(Registers(e, "", None, None, 0, true, true), n) == Begins(s, e, n, false, Cleaning)
  {
    var d := s.Disconnect(e, n);
    assert d.rooms == map[] && d.entries == s.entries && d.pending == s.pending && d.prebuilt == s.prebuilt && d.stopped == s.stopped;
  }

  lemma ConnectIsCreated(s: Registry, e: string, n: nat)
    ensures var t, ev := Begins(s, e, n, false, Cleaning), Cleaned(n, true, true);
      t.Possible(ev) && t.Act(ev, n + 1) == Begins(s, e, n, true, SigningIn)
  {
    Restaged(s, e, n, false, Cleaning, true, SigningIn);
  }

  lemma ConnectSignsIn(s: Registry, e: string, n: nat)
    ensures var t, ev := Begins(s, e, n, true, SigningIn), SignedIn(n, true, true);
      t.Possible(ev) && t.Act(ev, n + 2) == Begins(s, e, n, true, Queued)
  {
    Restaged(s, e, n, true, SigningIn, true, Queued);
  }

  lemma ConnectIsRun(s: Registry, e: string, n: nat)
    ensures var t, ev := Begins(s, e, n, true, Queued), JobRuns(n, true, true);
      t.Possible(ev) && t.Act(ev, n + 3) == Begins(s, e, n, true, Migrating)
  {
    Restaged(s, e, n, true, Queued, true, Migrating);
  }

  lemma Beginning(s: Registry, e: string, n: nat, turn: (Registry, Event, nat, Registry) -> bool) returns (ms: seq<Registry>, me: seq<Event>)
    requires e !in s.entries && e !in s.pending && e !in s.prebuilt && s.rooms == map[] && Includes(turn)
    ensures |me| == 1 && Chain(ms, me, n, turn) && ms[0] == s && ms[1] == Begins(s, e, n, false, Cleaning)
  {
    ConnectStarts(s, e, n);
    ChainOne(s, Registers(e, "", None, None, 0, true, true), Begins(s, e, n, false, Cleaning), n, turn);
    ms, me := [s, Begins(s, e, n, false, Cleaning)], [Registers(e, "", None, None, 0, true, true)];
  }

  /** The first turns of a registration, up to its sign-in. */
  lemma Creating(s: Registry, e: string, n: nat, turn: (Registry, Event, nat, Registry) -> bool) returns (ms: seq<Registry>, me: seq<Event>)
    requires e !in s.entries && e !in s.pending && e !in s.prebuilt && s.rooms == map[] && Includes(turn)
    ensures |me| == 2 && Chain(ms, me, n, turn) && ms[0] == s && ms[2] == Begins(s, e, n, true, SigningIn)
  {
    ms, me := Beginning(s, e, n, turn);
    ConnectIsCreated(s, e, n);
    ChainSnoc(ms, me, Cleaned(n, true, true), Begins(s, e, n, true, SigningIn), n, turn);
    ms, me := ms + [Begins(s, e, n, true, SigningIn)], me + [Cleaned(n, true, true)];
  }

  /** The turns of a registration up to the end of its sign-in and the start of its schema write. */
  lemma Connecting(s: Registry, e: string, n: nat, turn: (Registry, Event, nat, Registry) -> bool) returns (ms: seq<Registry>, me: seq<Event>)
    requires e !in s.entries && e !in s.pending && e !in s.prebuilt && s.rooms == map[] && Includes(turn)
    ensures |me| == 4 && Chain(ms, me, n, turn) && ms[0] == s && ms[4] == Begins(s, e, n, true, Migrating)
  {
    ms, me := Creating(s, e, n, turn);
    ConnectSignsIn(s, e, n);
    ChainSnoc(ms, me, SignedIn(n, true, true), Begins(s, e, n, true, Queued), n, turn);
    ms, me := ms + [Begins(s, e, n, true, Queued)], me + [SignedIn(n, true, true)];
    ConnectIsRun(s, e, n);
    ChainSnoc(ms, me, JobRuns(n, true, true), Begins(s, e, n, true, Migrating), n, turn);
    ms, me := ms + [Begins(s, e, n, true, Migrating)], me + [JobRuns(n, true, true)];
  }

  const EMPTY := Registry(1, {}, map[], map[], map[], map[], {}, map[], {})

  const ONE := Begins(EMPTY, "g", 0, true, Stage.Installed).(entries := map["g" := Entry(Built(0), 0, None, false)])

  lemma FirstIsInstalled()
    ensures var s, ev := Begins(EMPTY, "g", 0, true, Migrating), Migrated(0, true, true, 0, None); s.Possible(ev) && s.Act(ev, 4) == ONE
  {
    Restaged(EMPTY, "g", 0, true, Migrating, true, Stage.Installed);
  }

  /** One connected entity in a registry for one, and two more that have come as far as their schema writes. */
  const READY := Begins(Begins(ONE, "a", 5, true, Migrating), "b", 9, true, Migrating)

  lemma FirstConnects(turn: (Registry, Event, nat, Registry) -> bool) returns (states: seq<Registry>, events: seq<Event>)
    requires Includes(turn)
    ensures Chain(states, events, 0, turn) && |events| == 5 && states[0] == EMPTY && states[5] == ONE
  {
    states, events := Connecting(EMPTY, "g", 0, turn);
    FirstIsInstalled();
    ChainSnoc(states, events, Migrated(0, true, true, 0, None), ONE, 0, turn);
    states, events := states + [ONE], events + [Migrated(0, true, true, 0, None)];
  }

  lemma TwoMoreConnect(turn: (Registry, Event, nat, Registry) -> bool) returns (states: seq<Registry>, events: seq<Event>)
    requires Includes(turn)
    ensures Chain(states, events, 0, turn) && |events| == 13 && states[0] == EMPTY && states[13] == READY
  {
    states, events := FirstConnects(turn);
    var ms, me := Connecting(ONE, "a", 5, turn);
    ChainConcat(states, events, ms, me, 0, turn);
    states, events := states + ms[1..], events + me;
    ms, me := Connecting(Begins(ONE, "a", 5, true, Migrating), "b", 9, turn);
    ChainConcat(states, events, ms, me, 0, turn);
    states, events := states + ms[1..], events + me;
  }

  lemma TurnIncludes()
    ensures Includes(Turn())
  {
  }

  lemma ReadyIsValid()
    ensures Inv(READY)
  {
    TurnIncludes();
    var states, events := TwoMoreConnect(Turn());
    ChainIsTrace(states, events);
    TraceInv(states, events, 13);
  }

  lemma ReadyIsFull()
    ensures var first, second, third := Migrated(5, true, true, 0, Some("g")), Migrated(9, true, true, 0, None), Evicted(5, true, 0);
      && READY.Possible(first) && READY.Act(first, 13).Possible(second) && READY.Act(first, 13).Act(second, 14).Possible(third)
      && |READY.Act(first, 13).Act(second, 14).Act(third, 15).entries| == 2
  {
    ReadyIsValid();
    assert READY.regs[5].stage.Migrating? && READY.regs[9].stage.Migrating? && READY.Live(5) && READY.Live(9) && READY.LeastRecent("g");
    BoundCanBreak(READY, 13, 5, 9, "g", 0);
  }

  /** The three turns that break the bound. */
  lemma ThreeTurns(turn: (Registry, Event, nat, Registry) -> bool) returns (ms: seq<Registry>, me: seq<Event>)
    requires Includes(turn)
    ensures |me| == 3 && Chain(ms, me, 13, turn) && ms[0] == READY && |ms[3].entries| == 2
  {
    ReadyIsFull();
    ms, me := ThreeOn(READY, 13, Migrated(5, true, true, 0, Some("g")), Migrated(9, true, true, 0, None), Evicted(5, true, 0), turn);
  }

  lemma ThreeOn(s: Registry, n: nat, first: Event, second: Event, third: Event, turn: (Registry, Event, nat, Registry) -> bool)
      returns (ms: seq<Registry>, me: seq<Event>)
    requires s.Possible(first) && s.Act(first, n).Possible(second) && s.Act(first, n).Act(second, n + 1).Possible(third) && Includes(turn)
    ensures |me| == 3 && Chain(ms, me, n, turn) && ms[0] == s && ms[3] == s.Act(first, n).Act(second, n + 1).Act(third, n + 2)
  {
    var t := s.Act(first, n);
    var u := t.Act(second, n + 1);
    var v := u.Act(third, n + 2);
    ChainOfThree(s, t, u, v, first, second, third, n, turn);
    ms, me := [s, t, u, v], [first, second, third];
  }

  /** A run from an empty registry for one client that ends with two installed. */
  lemma BoundIsBroken() returns (states: seq<Registry>, events: seq<Event>)
    ensures Trace(states, events) && |events| == 16 && states[0] == EMPTY && EMPTY.maxClients == 1
    ensures |states[16].entries| == 2
  {
    TurnIncludes();
    states, events := BoundIsReached(Turn());
    ChainIsTrace(states, events);
  }

  lemma BoundIsReached(turn: (Registry, Event, nat, Registry) -> bool) returns (states: seq<Registry>, events: seq<Event>)
    requires Includes(turn)
    ensures Chain(states, events, 0, turn) && |events| == 16 && states[0] == EMPTY && |states[16].entries| == 2
  {
    states, events := TwoMoreConnect(turn);
    var ms, me := ThreeTurns(turn);
    ChainConcat(states, events, ms, me, 0, turn);
    states, events := states + ms[1..], events + me;
  }

  lemma BoundStaysInCalls(s: Registry, ev: Event, n: nat)
    requires s.Possible(ev) && (ev.Registers? || ev.Disconnects? || ev.Uses? || ev.BindsRoom? || ev.Rejects?)
    ensures s.Act(ev, n).maxClients == s.maxClients
  {
  }

  lemma BoundStaysInEvictions(s: Registry, ev: Event, n: nat)
    requires s.Possible(ev) && (ev.Migrated? || ev.Evicted?)
    ensures s.Act(ev, n).maxClients == s.maxClients
  {
  }

  lemma BoundStays(s: Registry, ev: Event, n: nat)
    requires s.Possible(ev)
    ensures s.Act(ev, n).maxClients == s.maxClients
  {
    if ev.Registers? || ev.Disconnects? || ev.Uses? || ev.BindsRoom? || ev.Rejects? {
      BoundStaysInCalls(s, ev, n);
    } else if ev.Migrated? || ev.Evicted? {
      BoundStaysInEvictions(s, ev, n);
    }
  }

  predicate AwaitsEviction(s: Registry, q: nat) { q in s.regs && s.regs[q].stage.Evicting? }

  /** Within the bound, with at most one eviction awaited, whose slot is free. */
  ghost predicate WithinBound(s: Registry) {
    && |s.entries| <= s.maxClients
    && (forall p, q | AwaitsEviction(s, p) && AwaitsEviction(s, q) :: p == q)
    && ((exists q :: AwaitsEviction(s, q)) ==> |s.entries| < s.maxClients)
  }

  lemma CallAwaitsNoMore(s: Registry, ev: Event, n: nat)
    requires Fresh(s, n) && s.Possible(ev) && (ev.Registers? || ev.Disconnects? || ev.Uses? || ev.BindsRoom? || ev.Rejects?)
    ensures forall q | AwaitsEviction(s.Act(ev, n), q) :: AwaitsEviction(s, q)
  {
  }

  lemma BuildAwaitsNoMore(s: Registry, ev: Event, n: nat)
    requires s.Possible(ev) && (ev.Cleaned? || ev.SignedIn? || ev.JobRuns?)
    ensures forall q | AwaitsEviction(s.Act(ev, n), q) :: AwaitsEviction(s, q)
    ensures s.Act(ev, n).entries == s.entries
  {
  }

  lemma BindAwaitsNoMore(s: Registry, r: nat, current: bool)
    requires r in s.regs
    ensures s.Bind(r, current).entries == s.entries && forall q | AwaitsEviction(s.Bind(r, current), q) :: AwaitsEviction(s, q)
  {
  }

  lemma JoinAwaitsNoMore(s: Registry, r: nat, current: bool)
    requires s.Possible(Joins(r, current))
    ensures s.Join(r, current).entries == s.entries && forall q | AwaitsEviction(s.Join(r, current), q) :: AwaitsEviction(s, q)
  {
  }

  lemma LeaveAwaitsNoMore(s: Registry, r: nat)
    requires r in s.regs && s.regs[r].stage.Done?
    ensures s.Leave(r).entries == s.entries && forall q | AwaitsEviction(s.Leave(r), q) :: AwaitsEviction(s, q)
  {
  }

  lemma StopAwaitsNoMore(s: Registry, r: nat)
    requires r in s.regs
    ensures s.Move(r, Done(false)).entries == s.entries && forall q | AwaitsEviction(s.Move(r, Done(false)), q) :: AwaitsEviction(s, q)
  {
  }

  lemma EndAwaitsNoMore(s: Registry, ev: Event, n: nat)
    requires s.Possible(ev) && (ev.Binds? || ev.Stops? || ev.Leaves? || ev.Joins?)
    ensures forall q | AwaitsEviction(s.Act(ev, n), q) :: AwaitsEviction(s, q)
    ensures s.Act(ev, n).entries == s.entries
  {
    match ev
    case Binds(r, current) => BindAwaitsNoMore(s, r, current);
    case Stops(r) => StopAwaitsNoMore(s, r);
    case Leaves(r) => LeaveAwaitsNoMore(s, r);
    case Joins(r, current) => JoinAwaitsNoMore(s, r, current);
  }

  lemma FailAwaitsNoMore(s: Registry, r: nat)
    requires r in s.regs
    ensures s.Fail(r).entries == s.entries && forall q :: AwaitsEviction(s.Fail(r), q) <==> AwaitsEviction(s, q) && q != r
  {
  }

  lemma InstallAwaitsNoMore(s: Registry, r: nat, now: int)
    requires Inv(s) && r in s.regs && s.regs[r].stage.Building() && s.Live(r)
    ensures |s.Install(r, now).entries| == |s.entries| + 1
    ensures forall q :: AwaitsEviction(s.Install(r, now), q) <==> AwaitsEviction(s, q) && q != r
  {
    InstallCounts(s, r, now);
  }

  lemma EvictAwaitsOne(s: Registry, r: nat, victim: string)
    requires r in s.regs && victim in s.entries
    ensures var t := s.Evict(victim).Move(r, Evicting);
      |t.entries| == |s.entries| - 1 && forall q :: AwaitsEviction(t, q) <==> AwaitsEviction(s, q) || q == r
  {
    EvictCounts(s, victim);
  }

  lemma MigratedWithinBound(s: Registry, ev: Event)
    requires Inv(s) && s.Possible(ev) && ev.Migrated? && WithinBound(s) && s.maxClients >= 1
    requires ev.ok ==> forall q :: !AwaitsEviction(s, q)
    ensures WithinBound(s.Migrate(ev.reg, ev.ok, ev.current, ev.now, ev.victim))
  {
    if !(ev.ok && s.Live(ev.reg) && ev.current) {
      FailAwaitsNoMore(s, ev.reg);
    } else if |s.entries| < s.maxClients {
      InstallAwaitsNoMore(s, ev.reg, ev.now);
    } else {
      EvictAwaitsOne(s, ev.reg, ev.victim.value);
    }
  }

  lemma EvictedWithinBound(s: Registry, ev: Event)
    requires Inv(s) && s.Possible(ev) && ev.Evicted? && WithinBound(s)
    ensures WithinBound(s.FinishEvict(ev.reg, ev.current, ev.now))
  {
    assert AwaitsEviction(s, ev.reg);
    if s.Live(ev.reg) && ev.current {
      InstallAwaitsNoMore(s, ev.reg, ev.now);
    } else {
      FailAwaitsNoMore(s, ev.reg);
    }
  }

  lemma TurnWithinBound(s: Registry, ev: Event, n: nat)
    requires Inv(s) && Fresh(s, n) && s.Possible(ev) && WithinBound(s) && s.maxClients >= 1
    requires ev.Migrated? && ev.ok ==> forall q :: !AwaitsEviction(s, q)
    ensures WithinBound(s.Act(ev, n)) && s.Act(ev, n).maxClients == s.maxClients
  {
    BoundStays(s, ev, n);
    if ev.Registers? || ev.Disconnects? || ev.Uses? || ev.BindsRoom? || ev.Rejects? {
      NotLarger(s, ev, n);
      CallAwaitsNoMore(s, ev, n);
    } else if ev.Migrated? {
      MigratedWithinBound(s, ev);
    } else if ev.Evicted? {
      EvictedWithinBound(s, ev);
    } else if ev.Cleaned? || ev.SignedIn? || ev.JobRuns? {
      BuildAwaitsNoMore(s, ev, n);
    } else {
      EndAwaitsNoMore(s, ev, n);
    }
  }

  /**
    If no schema write ends well while another registration awaits an eviction, a registry for at least one
    client that starts within its bound never exceeds it.
   */
  lemma {:induction false} EntriesStayBounded(states: seq<Registry>, events: seq<Event>, i: nat)
    requires Trace(states, events) && i < |states| && 1 <= states[0].maxClients && |states[0].entries| <= states[0].maxClients
    requires forall k {:trigger events[k]} | 0 <= k < |events| && events[k].Migrated? && events[k].ok :: forall q :: !AwaitsEviction(states[k], q)
    ensures |states[i].entries| <= states[i].maxClients == states[0].maxClients && WithinBound(states[i])
  {
    if i > 0 {
      EntriesStayBounded(states, events, i - 1);
      TraceInv(states, events, i - 1);
      TurnWithinBound(states[i - 1], events[i - 1], i - 1);
    }
  }

  class EntityClientRegistry {
    const maxClients: int
    const given: set<string>
    var entries: map<string, Entry>
    var roomToEntity: map<string, string>
    var pending: map<string, nat>
    var revisions: map<string, nat>
    var prebuilt: set<string>
    /** The number of the turn, which the event loop advances. */
    var turn: nat
    /** The registrations begun, and the clients that stop() has been called on. */
    var regs: map<nat, Registration>
    ghost var stopped: set<Client>

    ghost function View(): Registry
      reads this
    {
      Registry(maxClients, given, entries, roomToEntity, pending, revisions, prebuilt, regs, stopped)
    }

    constructor (maxClients: int, clients: map<string, Entry>, roomIndex: map<string, string>)
      requires forall e | e in clients :: clients[e].client == Given(e)
      ensures Begun(View()) && View().maxClients == maxClients && View().entries == clients && View().rooms == roomIndex
    {
      this.maxClients, given := maxClients, clients.Keys;
      entries, roomToEntity, pending, revisions, prebuilt := clients, roomIndex, map[], map[], clients.Keys;
      turn, regs, stopped := 0, map[], {};
    }

    method DropRooms(entity: string)
      modifies this`roomToEntity
      ensures roomToEntity == Without(old(roomToEntity), entity)
    {
      var rest := roomToEntity.Keys;
      while rest != {}
        invariant Without(roomToEntity, entity) == Without(old(roomToEntity), entity)
        invariant forall room | room in roomToEntity && roomToEntity[room] == entity :: room in rest
        decreases |rest|
      {
        var room :| room in rest;
        rest := rest - {room};
        if room in roomToEntity && roomToEntity[room] == entity {
          roomToEntity := roomToEntity - {room};
        }
      }
    }

    method Disconnect(entity: string)
      modifies this`revisions, this`entries, this`pending, this`prebuilt, this`roomToEntity, this`stopped
      ensures View() == old(View()).Disconnect(entity, turn)
    {
      revisions := revisions[entity := turn];
      stopped := stopped + View().Held(entity);
      entries := entries - {entity};
      pending := pending - {entity};
      prebuilt := prebuilt - {entity};
      DropRooms(entity);
    }

    method Register(entity: string, serialized: string, room: Option<string>, expiry: Option<int>, now: int, current: bool, theirs: bool)
      modifies this`entries, this`roomToEntity, this`pending, this`revisions, this`prebuilt, this`regs, this`stopped
      ensures View() == old(View()).Register(entity, serialized, room, expiry, now, current, theirs, turn)
    {
      if !current {
        return;
      }
      if entity in entries && entity in prebuilt {
        entries := entries[entity := entries[entity].(lastUsed := now)];
        if room.Some? {
          roomToEntity := roomToEntity[room.value := entity];
        }
        return;
      }
      if entity in pending && pending[entity] in regs && regs[pending[entity]].serialized == serialized && Live(pending[entity]) && theirs {
        regs := regs[turn := Registration(entity, serialized, room, expiry, pending[entity], false, Joined)];
        return;
      }
      Disconnect(entity);
      assert pending[entity := turn] == old(pending)[entity := turn];
      pending := pending[entity := turn];
      regs := regs[turn := Registration(entity, serialized, room, expiry, turn, false, Cleaning)];
    }

    function Live(r: nat): bool
      reads this`regs, this`revisions
      requires r in regs
    {
      regs[r].entity in revisions && revisions[regs[r].entity] == regs[r].owner
    }

    method Evict(entity: string)
      modifies this`entries, this`roomToEntity, this`stopped
      ensures View() == old(View()).Evict(entity)
    {
      if entity !in entries {
        return;
      }
      stopped := stopped + {entries[entity].client};
      entries := entries - {entity};
      DropRooms(entity);
    }

    /** The first step of _evictLru: the least recently used entry, if there is one. */
    method LeastRecentlyUsed() returns (lru: Option<string>)
      ensures if entries == map[] then lru.None? else lru.Some? && View().LeastRecent(lru.value)
    {
      lru := None;
      var rest := entries.Keys;
      while rest != {}
        invariant rest <= entries.Keys && (lru.None? ==> rest == entries.Keys)
        invariant lru.Some? ==> lru.value in entries
        invariant lru.Some? ==> forall e | e in entries && e !in rest :: entries[lru.value].lastUsed <= entries[e].lastUsed
        decreases |rest|
      {
        var key :| key in rest;
        rest := rest - {key};
        if lru.None? || entries[key].lastUsed < entries[lru.value].lastUsed {
          lru := Some(key);
        }
      }
    }

    /** _buildEntry after the schema is in place, up to its next await. */
    method Migrated(r: nat, ok: bool, current: bool, now: int) returns (victim: Option<string>)
      requires r in regs && regs[r].stage.Migrating?
      modifies this
      ensures old(View()).Possible(Event.Migrated(r, ok, current, now, victim))
      ensures View() == old(View()).Migrate(r, ok, current, now, victim)
    {
      victim := LeastRecentlyUsed();
      if |entries| < maxClients {
        victim := None;
      }
      if !(ok && Live(r) && current) {
        Fail(r);
      } else if |entries| < maxClients {
        Install(r, now);
      } else {
        if victim.Some? {
          Evict(victim.value);
        }
        regs := regs[r := regs[r].(stage := Evicting)];
      }
    }

    method Fail(r: nat)
      requires r in regs
      modifies this`regs, this`stopped
      ensures View() == old(View()).Fail(r)
    {
      regs := regs[r := regs[r].(stage := Stopping)];
      stopped := stopped + {Built(r)};
    }

    method Install(r: nat, now: int)
      requires r in regs
      modifies this`entries, this`regs
      ensures View() == old(View()).Install(r, now)
    {
      entries := entries[regs[r].entity := Entry(Built(r), now, regs[r].expiry, false)];
      regs := regs[r := regs[r].(stage := Installed)];
    }

    /** _buildEntry after the await of an eviction. */
    method Evicted(r: nat, current: bool, now: int)
      requires r in regs
      modifies this`entries, this`regs, this`stopped
      ensures View() == old(View()).FinishEvict(r, current, now)
    {
      if Live(r) && current {
        Install(r, now);
      } else {
        Fail(r);
      }
    }

    /** registerDelegation after _buildEntry. */
    method Bind(r: nat, current: bool)
      requires r in regs
      modifies this`roomToEntity, this`regs
      ensures View() == old(View()).Bind(r, current)
    {
      var owns := Live(r) && current;
      if owns && regs[r].room.Some? {
        roomToEntity := roomToEntity[regs[r].room.value := regs[r].entity];
      }
      regs := regs[r := regs[r].(stage := Done(owns))];
    }

    /** The finally block of registerDelegation. */
    method Leave(r: nat)
      requires r in regs && regs[r].stage.Done?
      modifies this`pending, this`regs
      ensures View() == old(View()).Leave(r)
    {
      var e := regs[r].entity;
      if e in pending && pending[e] == r {
        pending := pending - {e};
      }
      regs := regs[r := regs[r].(stage := Left(regs[r].stage.ok))];
    }

    /** registerDelegation of a coalesced caller, after the registration that it joined has settled. */
    method Join(r: nat, current: bool)
      requires r in regs && regs[r].owner in regs && regs[regs[r].owner].stage.Settled()
      modifies this`roomToEntity, this`regs
      ensures View() == old(View()).Join(r, current)
    {
      var owns := regs[regs[r].owner].stage.ok && Live(r) && current;
      if owns && regs[r].room.Some? {
        roomToEntity := roomToEntity[regs[r].room.value := regs[r].entity];
      }
      regs := regs[r := regs[r].(stage := Left(owns))];
    }

    method ClientFor(entity: string, now: int, usable: bool) returns (client: Option<Client>)
      modifies this`entries, this`roomToEntity, this`stopped
      ensures View() == old(View()).Use(entity, now, usable)
      ensures client == if entity in old(entries) && usable && !old(View()).Spent(entity, now) then Some(old(entries)[entity].client) else None
    {
      if entity !in entries || !usable {
        return None;
      }
      var entry := entries[entity];
      if entry.rejected || (entry.expiry.Some? && now >= entry.expiry.value) {
        Evict(entity);
        return None;
      }
      entries := entries[entity := entry.(lastUsed := now)];
      return Some(entry.client);
    }

    method BindRoom(entity: string, room: string, now: int, usable: bool)
      modifies this`entries, this`roomToEntity, this`stopped
      ensures View() == old(View()).BindRoom(entity, room, now, usable)
    {
      var client := ClientFor(entity, now, usable);
      if client.Some? {
        roomToEntity := roomToEntity[room := entity];
      }
    }
  }
}
