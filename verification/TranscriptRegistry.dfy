/**
  packages/eliza-service/src/transcript-registry.ts, TranscriptAccessRegistry: who may read transcripts.

  Every call, and every resumption of an activation after an await, happens in a turn of its own. A
  registration that starts an activation is named by its turn, and so is its generation object. The
  callbacks isCurrent and canUse, which the registry may call at every check, are the `current` and
  `usable` of the turn. A room is None when the caller gives none or an empty one.
 */
module TranscriptRegistries {
  import opened Collections
  import opened Options

  datatype Entry = Entry(act: nat, expiry: int, lastUsed: int)

  datatype Selection = Nothing | Single(meeting: string) | Several(meetings: seq<string>)

  /** An activation runs, has thrown, has installed its entry, or has been cleaned up after. */
  datatype Stage = Activating | Failed | Landed | Gone

  datatype Activation = Activation(entity: string, serialized: string, room: Option<string>, expiry: int, stage: Stage)

  datatype Event =
    | Registers(entity: string, serialized: string, room: Option<string>, expiry: int, same: bool, sound: bool)
    | Activates(act: nat, ok: bool, current: bool, now: int, lru: Option<string>)
    | Catches(act: nat, current: bool)
    | Finishes(act: nat)
    | Revokes(entity: string)
    | Reads(entity: string, room: Option<string>, now: int, usable: bool)
    | Selects(entity: string, room: Option<string>, selection: Selection, now: int, later: int, usable: bool)
    | SelectsMeeting(entity: string, room: Option<string>, selection: Selection, now: int, later: int, usable: bool)
    | Stops

  /** What is left of `m` when the keys that `rooms` maps to `entity` are dropped. */
  function Without<T>(m: map<string, T>, rooms: map<string, string>, entity: string): map<string, T> {
    map room | room in m && (room in rooms ==> rooms[room] != entity) :: m[room]
  }

  /** roomToEntity and selectedMeetingByRoom; `madeBy` records which entity made the selection of a room. */
  datatype Rooms = Rooms(owner: map<string, string>, selections: map<string, Selection>, madeBy: map<string, string>)
  {
    function Drop(entity: string): Rooms {
      Rooms(Without(owner, owner, entity), Without(selections, owner, entity), Without(madeBy, owner, entity))
    }

    /** The room changes hands with its selection cleared. */
    function Claim(room: string, entity: string): Rooms {
      Rooms(owner[room := entity], selections - {room}, madeBy - {room})
    }

    function Own(entity: string, room: string): Rooms { this.(owner := owner[room := entity]) }

    function Store(entity: string, room: string, selection: Selection): Rooms {
      this.(selections := selections[room := selection], madeBy := madeBy[room := entity])
    }

    function Clear(room: string): Rooms { this.(selections := selections - {room}, madeBy := madeBy - {room}) }

    /** A mapped room's owner is one of `entities`, and a room's selection was made by its present owner. */
    ghost predicate Valid(entities: set<string>) {
      && (forall room {:trigger owner[room]} | room in owner :: owner[room] in entities)
      && (forall room {:trigger selections[room]} | room in selections :: room in owner && room in madeBy && madeBy[room] == owner[room])
      && madeBy.Keys <= selections.Keys
    }
  }

  datatype Registry = Registry(
    maxEntries: int,
    entries: map<string, Entry>,
    pending: map<string, nat>,
    generations: map<string, nat>,
    rooms: Rooms,
    acts: map<nat, Activation>,
    turn: nat)
  {
    predicate Live(r: nat)
      requires r in acts
    {
      acts[r].entity in generations && generations[acts[r].entity] == r
    }

    function Drop(entity: string): Registry {
      this.(generations := generations - {entity},
            pending := pending - {entity},
            entries := entries - {entity},
            rooms := rooms.Drop(entity))
    }

    /** register(): join the identical pending one, or fence whatever there is and start to activate. */
    function Register(entity: string, serialized: string, room: Option<string>, expiry: int, same: bool, sound: bool): Registry {
      if entity in pending && pending[entity] in acts && acts[pending[entity]].serialized == serialized && acts[pending[entity]].room == room && same then this
      else
        Drop(entity).(generations := generations[entity := turn],
                      pending := pending[entity := turn],
                      acts := acts[turn := Activation(entity, serialized, room, expiry, if sound then Activating else Failed)])
    }

    predicate LeastRecent(entity: string) {
      entity in entries && forall other | other in entries :: entries[entity].lastUsed <= entries[other].lastUsed
    }

    /** evictLru: an empty entity id is not dropped. */
    function EvictLru(lru: Option<string>): Registry { if lru.Some? && lru.value != "" then Drop(lru.value) else this }

    function Move(r: nat, stage: Stage): Registry
      requires r in acts
    {
      this.(acts := acts[r := acts[r].(stage := stage)])
    }

    function Install(r: nat, now: int): Registry
      requires r in acts
    {
      this.(entries := entries[acts[r].entity := Entry(r, acts[r].expiry, now)],
            rooms := if acts[r].room.Some? then rooms.Claim(acts[r].room.value, acts[r].entity) else rooms,
            acts := acts[r := acts[r].(stage := Landed)])
    }

    /** activate() after its last await. */
    function Activate(r: nat, ok: bool, current: bool, now: int, lru: Option<string>): Registry
      requires r in acts
    {
      if !(ok && Live(r) && current) then Move(r, Failed)
      else (if |entries| >= maxEntries then EvictLru(lru) else this).Install(r, now)
    }

    function Unlist(r: nat): Registry
      requires r in acts
    {
      var e := acts[r].entity;
      Move(r, Gone).(pending := if e in pending && pending[e] == r then pending - {e} else pending)
    }

    /** The catch and finally blocks of register(). */
    function Catch(r: nat, current: bool): Registry
      requires r in acts
    {
      (if Live(r) && current then Drop(acts[r].entity) else this).Unlist(r)
    }

    predicate Readable(entity: string, room: Option<string>, usable: bool) {
      && usable && entity in entries
      && (room.Some? && room.value in rooms.owner ==> rooms.owner[room.value] == entity)
    }

    predicate Expired(entity: string, now: int)
      requires entity in entries
    {
      now >= entries[entity].expiry
    }

    /** readerFor: refuse, or drop an expired grant, or touch the entry. */
    function Read(entity: string, room: Option<string>, now: int, usable: bool): Registry {
      if !Readable(entity, room, usable) then this
      else if Expired(entity, now) then Drop(entity)
      else this.(entries := entries[entity := entries[entity].(lastUsed := now)])
    }

    predicate Reads(entity: string, room: Option<string>, now: int, usable: bool) {
      Readable(entity, room, usable) && !Expired(entity, now)
    }

    /** setSelection: the grant is checked again, by a later clock, before anything is stored. */
    function Select(entity: string, room: Option<string>, selection: Selection, now: int, later: int, usable: bool): Registry {
      if room.None? then this
      else
        var once := Read(entity, room, now, usable);
        if !Reads(entity, room, now, usable) then once
        else if selection.Nothing? then once.(rooms := once.rooms.Clear(room.value))
        else
          var twice := once.Read(entity, room, later, usable);
          if !once.Reads(entity, room, later, usable) then twice
          else twice.(rooms := twice.rooms.Own(entity, room.value).Store(entity, room.value, selection))
    }

    /** selectMeeting: here the room is taken before the second check. */
    function SelectMeeting(entity: string, room: Option<string>, selection: Selection, now: int, later: int, usable: bool): Registry {
      if room.None? then this
      else
        var once := Read(entity, room, now, usable);
        if !Reads(entity, room, now, usable) then once
        else
          var owned := once.(rooms := once.rooms.Own(entity, room.value));
          var twice := owned.Read(entity, room, later, usable);
          if !owned.Reads(entity, room, later, usable) then twice
          else twice.(rooms := twice.rooms.Store(entity, room.value, selection))
    }

    /** selectedMeetingFor, of an entity that may read. */
    function Selected(entity: string, room: string): Option<string> {
      if room in rooms.owner && rooms.owner[room] == entity && room in rooms.selections && rooms.selections[room].Single?
      then Some(rooms.selections[room].meeting)
      else None
    }

    function Stop(): Registry {
      this.(entries := map[], pending := map[], generations := map[], rooms := Rooms(map[], map[], map[]))
    }

    predicate Possible(ev: Event) {
      match ev
      case Activates(r, _, _, _, lru) =>
        && r in acts && acts[r].stage.Activating?
        && (if entries == map[] then lru.None? else lru.Some? && LeastRecent(lru.value))
      case Catches(r, _) => r in acts && acts[r].stage.Failed?
      case Finishes(r) => r in acts && acts[r].stage.Landed?
      case SelectsMeeting(_, _, selection, _, _, _) => selection.Single?
      case _ => true
    }

    function Act(ev: Event): Registry
      requires Possible(ev)
    {
      match ev
      case Registers(e, serialized, room, expiry, same, sound) => Register(e, serialized, room, expiry, same, sound)
      case Activates(r, ok, current, now, lru) => Activate(r, ok, current, now, lru)
      case Catches(r, current) => Catch(r, current)
      case Finishes(r) => Unlist(r)
      case Revokes(e) => Drop(e)
      case Reads(e, room, now, usable) => Read(e, room, now, usable)
      case Selects(e, room, selection, now, later, usable) => Select(e, room, selection, now, later, usable)
      case SelectsMeeting(e, room, selection, now, later, usable) => SelectMeeting(e, room, selection, now, later, usable)
      case Stops => Stop()
    }

    function After(ev: Event): Registry
      requires Possible(ev)
    {
      Act(ev).(turn := turn + 1)
    }

    /** A generation belongs to an activation of its entity, and an entry to the present generation. */
    ghost predicate AccessValid() {
      && (forall r {:trigger acts[r]} | r in acts :: r < turn)
      && (forall e {:trigger generations[e]} | e in generations :: generations[e] in acts && acts[generations[e]].entity == e)
      && (forall e {:trigger entries[e]} | e in entries ::
            e in generations && entries[e].act == generations[e] && (acts[generations[e]].stage.Landed? || acts[generations[e]].stage.Gone?))
    }

    ghost predicate Inv() { AccessValid() && rooms.Valid(entries.Keys) }
  }

  lemma DropKeepsInv(s: Registry, e: string)
    requires s.Inv()
    ensures s.Drop(e).Inv()
  {
  }

  lemma TouchKeepsInv(s: Registry, e: string, now: int)
    requires s.Inv() && e in s.entries
    ensures s.(entries := s.entries[e := s.entries[e].(lastUsed := now)]).Inv()
  {
  }

  lemma ReadKeepsInv(s: Registry, e: string, room: Option<string>, now: int, usable: bool)
    requires s.Inv()
    ensures s.Read(e, room, now, usable).Inv()
    ensures s.Reads(e, room, now, usable) ==> e in s.Read(e, room, now, usable).entries
  {
    if s.Readable(e, room, usable) {
      DropKeepsInv(s, e);
      TouchKeepsInv(s, e, now);
    }
  }

  lemma TurnKeepsInv(s: Registry)
    requires s.Inv()
    ensures s.(turn := s.turn + 1).Inv()
  {
  }

  lemma RegisterKeepsInv(s: Registry, ev: Event)
    requires s.Inv() && ev.Registers?
    ensures s.After(ev).Inv()
  {
    DropKeepsInv(s, ev.entity);
  }

  lemma InstallKeepsInv(s: Registry, r: nat, now: int)
    requires s.Inv() && r in s.acts && s.acts[r].stage.Activating? && s.Live(r)
    ensures s.Install(r, now).Inv() && s.acts[r].entity !in s.entries
  {
  }

  lemma MoveKeepsInv(s: Registry, r: nat, stage: Stage)
    requires s.Inv() && r in s.acts && (s.acts[r].entity in s.entries && s.entries[s.acts[r].entity].act == r ==> stage.Landed? || stage.Gone?)
    ensures s.Move(r, stage).Inv()
  {
  }

  /** The registration that installs is live, so it is not the one that is evicted. */
  lemma ActivateKeepsInv(s: Registry, r: nat, ok: bool, current: bool, now: int, lru: Option<string>)
    requires s.Inv() && r in s.acts && s.acts[r].stage.Activating? && (lru.Some? ==> lru.value in s.entries)
    ensures s.Activate(r, ok, current, now, lru).Inv()
  {
    if !(ok && s.Live(r) && current) {
      MoveKeepsInv(s, r, Failed);
    } else {
      if lru.Some? { DropKeepsInv(s, lru.value); }
      InstallKeepsInv(if |s.entries| >= s.maxEntries then s.EvictLru(lru) else s, r, now);
    }
  }

  lemma SelectKeepsInv(s: Registry, e: string, room: Option<string>, selection: Selection, now: int, later: int, usable: bool)
    requires s.Inv()
    ensures s.Select(e, room, selection, now, later, usable).Inv()
  {
    ReadKeepsInv(s, e, room, now, usable);
    var once := s.Read(e, room, now, usable);
    ReadKeepsInv(once, e, room, later, usable);
  }

  lemma OwnKeepsInv(s: Registry, e: string, room: string)
    requires s.Inv() && e in s.entries && (room in s.rooms.owner ==> s.rooms.owner[room] == e)
    ensures s.(rooms := s.rooms.Own(e, room)).Inv()
  {
  }

  lemma StoreKeepsInv(s: Registry, e: string, room: string, selection: Selection)
    requires s.Inv() && room in s.rooms.owner && s.rooms.owner[room] == e
    ensures s.(rooms := s.rooms.Store(e, room, selection)).Inv()
  {
  }

  lemma SelectMeetingKeepsInv(s: Registry, e: string, room: Option<string>, selection: Selection, now: int, later: int, usable: bool)
    requires s.Inv()
    ensures s.SelectMeeting(e, room, selection, now, later, usable).Inv()
  {
    ReadKeepsInv(s, e, room, now, usable);
    if room.Some? && s.Reads(e, room, now, usable) {
      var once := s.Read(e, room, now, usable);
      var owned := once.(rooms := once.rooms.Own(e, room.value));
      OwnKeepsInv(once, e, room.value);
      ReadKeepsInv(owned, e, room, later, usable);
      if owned.Reads(e, room, later, usable) {
        StoreKeepsInv(owned.Read(e, room, later, usable), e, room.value, selection);
      }
    }
  }

  lemma UnlistKeepsInv(s: Registry, r: nat)
    requires s.Inv() && r in s.acts
    ensures s.Unlist(r).Inv()
  {
    MoveKeepsInv(s, r, Gone);
  }

  lemma CatchKeepsInv(s: Registry, r: nat, current: bool)
    requires s.Inv() && r in s.acts
    ensures s.Catch(r, current).Inv()
  {
    DropKeepsInv(s, s.acts[r].entity);
    UnlistKeepsInv(if s.Live(r) && current then s.Drop(s.acts[r].entity) else s, r);
  }

  lemma ActKeepsInv(s: Registry, ev: Event)
    requires s.Inv() && s.Possible(ev) && !ev.Registers? && !ev.Selects? && !ev.SelectsMeeting?
    ensures s.Act(ev).Inv()
  {
    match ev
    case Activates(r, ok, current, now, lru) => ActivateKeepsInv(s, r, ok, current, now, lru);
    case Catches(r, current) => CatchKeepsInv(s, r, current);
    case Finishes(r) => UnlistKeepsInv(s, r);
    case Revokes(e) => DropKeepsInv(s, e);
    case Reads(e, room, now, usable) => ReadKeepsInv(s, e, room, now, usable);
    case Stops =>
  }

  lemma EventKeepsInv(s: Registry, ev: Event)
    requires s.Inv() && s.Possible(ev)
    ensures s.After(ev).Inv()
  {
    if ev.Registers? {
      RegisterKeepsInv(s, ev);
    } else {
      if ev.Selects? {
        SelectKeepsInv(s, ev.entity, ev.room, ev.selection, ev.now, ev.later, ev.usable);
      } else if ev.SelectsMeeting? {
        SelectMeetingKeepsInv(s, ev.entity, ev.room, ev.selection, ev.now, ev.later, ev.usable);
      } else {
        ActKeepsInv(s, ev);
      }
      TurnKeepsInv(s.Act(ev));
    }
  }

  ghost predicate Trace(states: seq<Registry>, events: seq<Event>) {
    && |states| == |events| + 1
    && states[0] == Registry(states[0].maxEntries, map[], map[], map[], Rooms(map[], map[], map[]), map[], 0)
    && forall i {:trigger events[i]} | 0 <= i < |events| :: states[i].Possible(events[i]) && states[i + 1] == states[i].After(events[i])
  }

  lemma {:induction false} TraceInv(states: seq<Registry>, events: seq<Event>, i: nat)
    requires Trace(states, events) && i < |states|
    ensures states[i].Inv() && states[i].turn == i
  {
    if i > 0 {
      TraceInv(states, events, i - 1);
      EventKeepsInv(states[i - 1], events[i - 1]);
    }
  }

  /**
    Over all runs: a mapped room's owner has a live entry; a room's selection was made by the entity
    that owns the room now; and what selectedMeetingFor answers was selected by the entity that asks.
   */
  lemma RoomsAreIsolated(states: seq<Registry>, events: seq<Event>, i: nat, room: string)
    requires Trace(states, events) && i < |states|
    ensures room in states[i].rooms.owner ==> states[i].rooms.owner[room] in states[i].entries
    ensures room in states[i].rooms.selections ==>
              && room in states[i].rooms.owner && room in states[i].rooms.madeBy
              && states[i].rooms.madeBy[room] == states[i].rooms.owner[room]
    ensures forall e :: states[i].Selected(e, room).Some? ==> room in states[i].rooms.madeBy && states[i].rooms.madeBy[room] == e
  {
    TraceInv(states, events, i);
  }

  /** No new entry, generation or activation. */
  ghost predicate Shrinks(s: Registry, t: Registry) {
    && t.entries.Keys <= s.entries.Keys
    && t.generations.Keys <= s.generations.Keys && (forall e {:trigger t.generations[e]} | e in t.generations :: t.generations[e] == s.generations[e])
    && t.acts.Keys == s.acts.Keys && (forall r {:trigger t.acts[r]} | r in t.acts :: t.acts[r].entity == s.acts[r].entity)
    && t.turn == s.turn && t.maxEntries == s.maxEntries
  }

  lemma ReadShrinks(s: Registry, e: string, room: Option<string>, now: int, usable: bool)
    ensures Shrinks(s, s.Read(e, room, now, usable))
  {
  }

  lemma CatchShrinks(s: Registry, r: nat, current: bool)
    requires r in s.acts
    ensures Shrinks(s, s.Catch(r, current)) && Shrinks(s, s.Unlist(r))
  {
  }

  lemma SelectShrinks(s: Registry, e: string, room: Option<string>, selection: Selection, now: int, later: int, usable: bool)
    ensures Shrinks(s, s.Select(e, room, selection, now, later, usable))
  {
    ReadShrinks(s, e, room, now, usable);
    ReadShrinks(s.Read(e, room, now, usable), e, room, later, usable);
  }

  lemma SelectMeetingShrinks(s: Registry, e: string, room: Option<string>, selection: Selection, now: int, later: int, usable: bool)
    ensures Shrinks(s, s.SelectMeeting(e, room, selection, now, later, usable))
  {
    ReadShrinks(s, e, room, now, usable);
    if room.Some? {
      var once := s.Read(e, room, now, usable);
      ReadShrinks(once.(rooms := once.rooms.Own(e, room.value)), e, room, later, usable);
    }
  }

  /** Everything but a registration and an installation. */
  lemma CallShrinks(s: Registry, ev: Event)
    requires s.Possible(ev) && !ev.Activates? && !ev.Registers?
    ensures Shrinks(s, s.Act(ev))
  {
    match ev
    case Catches(r, current) => CatchShrinks(s, r, current);
    case Finishes(r) => CatchShrinks(s, r, true);
    case Reads(e, room, now, usable) => ReadShrinks(s, e, room, now, usable);
    case Selects(e, room, selection, now, later, usable) => SelectShrinks(s, e, room, selection, now, later, usable);
    case SelectsMeeting(e, room, selection, now, later, usable) => SelectMeetingShrinks(s, e, room, selection, now, later, usable);
    case Revokes(_) =>
    case Stops =>
  }

  lemma FewerEntries(s: Registry, ev: Event)
    requires s.Inv() && s.Possible(ev) && !ev.Activates?
    ensures |s.After(ev).entries| <= |s.entries|
  {
    if !ev.Registers? { CallShrinks(s, ev); }
    SubsetSize(s.After(ev).entries.Keys, s.entries.Keys);
    assert |s.After(ev).entries.Keys| == |s.After(ev).entries| && |s.entries.Keys| == |s.entries|;
  }

  lemma InstallCounts(s: Registry, r: nat, now: int)
    requires r in s.acts && s.acts[r].entity !in s.entries
    ensures |s.Install(r, now).entries| == |s.entries| + 1
  {
  }

  lemma ActivateCounts(s: Registry, r: nat, ok: bool, current: bool, now: int, lru: Option<string>)
    requires s.Inv() && r in s.acts && s.acts[r].stage.Activating? && (lru.Some? ==> lru.value in s.entries)
    ensures |s.Activate(r, ok, current, now, lru).entries| ==
      if !(ok && s.Live(r) && current) then |s.entries|
      else if |s.entries| >= s.maxEntries && lru.Some? && lru.value != "" then |s.entries|
      else |s.entries| + 1
  {
    if ok && s.Live(r) && current {
      InstallKeepsInv(s, r, now);
      if |s.entries| >= s.maxEntries && lru.Some? && lru.value != "" {
        assert |s.Drop(lru.value).entries| == |s.entries| - 1;
        InstallCounts(s.Drop(lru.value), r, now);
      } else {
        InstallCounts(s, r, now);
      }
    }
  }

  /**
    A turn takes the registry from within its bound to beyond it exactly when it installs while the
    bound is reached and nothing can be evicted: a bound of zero, or a least recently used entry whose
    entity id is empty.
   */
  lemma BoundBreaksIff(s: Registry, ev: Event)
    requires s.Inv() && s.Possible(ev) && |s.entries| <= s.maxEntries
    ensures |s.After(ev).entries| > s.maxEntries <==>
      && ev.Activates? && ev.ok && s.Live(ev.act) && ev.current && |s.entries| == s.maxEntries
      && (s.maxEntries == 0 || ev.lru == Some(""))
  {
    if ev.Activates? {
      ActivateCounts(s, ev.act, ev.ok, ev.current, ev.now, ev.lru);
    } else {
      FewerEntries(s, ev);
    }
  }

  /** With a bound of at least one, and no registration for an empty entity id, the bound holds throughout. */
  lemma {:induction false} EntriesStayBounded(states: seq<Registry>, events: seq<Event>, i: nat)
    requires Trace(states, events) && i < |states| && states[0].maxEntries >= 1
    requires forall k | 0 <= k < |events| && events[k].Registers? :: events[k].entity != ""
    ensures |states[i].entries| <= states[i].maxEntries == states[0].maxEntries
    ensures forall r | r in states[i].acts :: states[i].acts[r].entity != ""
  {
    if i > 0 {
      EntriesStayBounded(states, events, i - 1);
      TraceInv(states, events, i - 1);
      var s, ev := states[i - 1], events[i - 1];
      BoundBreaksIff(s, ev);
      TurnsOnce(s, ev);
      forall e | e in s.entries ensures e != "" { assert s.acts[s.generations[e]].entity == e; }
    }
  }

  function Fresh(maxEntries: int): Registry { Registry(maxEntries, map[], map[], map[], Rooms(map[], map[], map[]), map[], 0) }

  /** A registration by `e` in turn `n`, which activates in the next one. */
  function Granted(e: string, n: nat, lru: Option<string>): seq<Event> {
    [Registers(e, "", None, 1, true, true), Activates(n, true, true, 0, lru)]
  }

  /** The state after such a registration has been activated, when nothing is evicted for it. */
  function AfterGrant(s: Registry, e: string): Registry {
    s.(entries := s.entries[e := Entry(s.turn, 1, 0)], pending := s.pending[e := s.turn], generations := s.generations[e := s.turn],
       acts := s.acts[s.turn := Activation(e, "", None, 1, Landed)], turn := s.turn + 2)
  }

  lemma GrantStarts(s: Registry, e: string)
    requires e !in s.entries && e !in s.generations && e !in s.pending && s.rooms == Rooms(map[], map[], map[])
    ensures s.After(Registers(e, "", None, 1, true, true)) ==
      s.(pending := s.pending[e := s.turn], generations := s.generations[e := s.turn],
         acts := s.acts[s.turn := Activation(e, "", None, 1, Activating)], turn := s.turn + 1)
  {
    var d := s.Drop(e);
    assert d.entries == s.entries && d.generations == s.generations && d.pending == s.pending && d.rooms == s.rooms;
  }

  lemma GrantLands(s: Registry, e: string, lru: Option<string>)
    requires e !in s.entries && s.rooms == Rooms(map[], map[], map[]) && (lru.None? || lru == Some(""))
    ensures var t := s.(pending := s.pending[e := s.turn], generations := s.generations[e := s.turn],
                        acts := s.acts[s.turn := Activation(e, "", None, 1, Activating)], turn := s.turn + 1);
      t.Activate(s.turn, true, true, 0, lru).(turn := s.turn + 2) == AfterGrant(s, e)
  {
    UpdateTwice(s.acts, s.turn, Activation(e, "", None, 1, Activating), Activation(e, "", None, 1, Landed));
  }

  lemma GrantLeads(s: Registry, e: string, lru: Option<string>)
    requires e !in s.entries && e !in s.generations && e !in s.pending && s.rooms == Rooms(map[], map[], map[])
    requires if s.entries == map[] then lru.None? else lru == Some("") && s.LeastRecent("")
    ensures var t, ev := s.After(Registers(e, "", None, 1, true, true)), Activates(s.turn, true, true, 0, lru);
      t.Possible(ev) && t.After(ev) == AfterGrant(s, e)
  {
    GrantStarts(s, e);
    GrantLands(s, e, lru);
  }

  lemma TraceGoesOn(states: seq<Registry>, events: seq<Event>, ev: Event)
    requires Trace(states, events) && states[|events|].Possible(ev)
    ensures Trace(states + [states[|events|].After(ev)], events + [ev])
  {
    var on, more := states + [states[|events|].After(ev)], events + [ev];
    forall i {:trigger more[i]} | 0 <= i < |more| ensures on[i].Possible(more[i]) && on[i + 1] == on[i].After(more[i]) {
      if i < |events| { assert more[i] == events[i] && on[i] == states[i] && on[i + 1] == states[i + 1]; }
    }
  }

  lemma Granting(states: seq<Registry>, events: seq<Event>, e: string, lru: Option<string>) returns (on: seq<Registry>)
    requires Trace(states, events)
    requires var s := states[|events|];
      && s.turn == |events| && e !in s.entries && e !in s.generations && e !in s.pending && s.rooms == Rooms(map[], map[], map[])
      && if s.entries == map[] then lru.None? else lru == Some("") && s.LeastRecent("")
    ensures Trace(on, events + Granted(e, |events|, lru)) && on[0] == states[0] && on[|events| + 2] == AfterGrant(states[|events|], e)
  {
    var s, first, second := states[|events|], Registers(e, "", None, 1, true, true), Activates(|events|, true, true, 0, lru);
    GrantLeads(s, e, lru);
    TraceGoesOn(states, events, first);
    TraceGoesOn(states + [s.After(first)], events + [first], second);
    on := states + [s.After(first)] + [s.After(first).After(second)];
    assert events + Granted(e, |events|, lru) == events + [first] + [second];
  }

  /** A registry for no entries installs the first one all the same. */
  lemma BoundIsBrokenAtZero() returns (states: seq<Registry>)
    ensures Trace(states, Granted("a", 0, None)) && states[0] == Fresh(0) && |states[2].entries| == 1
  {
    states := Granting([Fresh(0)], [], "a", None);
    assert [] + Granted("a", 0, None) == Granted("a", 0, None);
  }

  /** In a registry for one entry, an entity with an empty id is not evicted for the next one. */
  lemma BoundIsBrokenByEmptyId() returns (states: seq<Registry>)
    ensures Trace(states, Granted("", 0, None) + Granted("a", 2, Some(""))) && states[0] == Fresh(1) && |states[4].entries| == 2
  {
    states := Granting([Fresh(1)], [], "", None);
    var s := AfterGrant(Fresh(1), "");
    assert [] + Granted("", 0, None) == Granted("", 0, None);
    assert s.entries == map["" := Entry(0, 1, 0)] && s.LeastRecent("");
    states := Granting(states, Granted("", 0, None), "a", Some(""));
  }

  /** A turn adds at most the activation it starts, and at most the generation of that. */
  ghost predicate OneTurn(s: Registry, t: Registry, ev: Event) {
    && (forall r {:trigger t.acts[r]} | r in t.acts :: if r in s.acts then t.acts[r].entity == s.acts[r].entity else ev.Registers? && r == s.turn && t.acts[r].entity == ev.entity)
    && (forall r {:trigger s.acts[r]} | r in s.acts :: r in t.acts)
    && (forall e {:trigger t.generations[e]} | e in t.generations ::
          (e in s.generations && t.generations[e] == s.generations[e]) || t.generations[e] == s.turn)
    && t.turn == s.turn + 1 && t.maxEntries == s.maxEntries
  }

  lemma RegistersOnce(s: Registry, ev: Event)
    requires s.Inv() && ev.Registers?
    ensures OneTurn(s, s.After(ev), ev)
  {
  }

  lemma InstallShrinks(s: Registry, r: nat, now: int)
    requires r in s.acts
    ensures Shrinks(s, s.Install(r, now).(entries := s.entries))
  {
  }

  lemma EvictThenInstall(s: Registry, t: Registry, r: nat, now: int)
    requires r in s.acts && Shrinks(s, t)
    ensures Shrinks(s, t.Install(r, now).(entries := s.entries))
  {
    InstallShrinks(t, r, now);
  }

  lemma DropShrinks(s: Registry, e: string)
    ensures Shrinks(s, s.Drop(e))
  {
  }

  lemma FailShrinks(s: Registry, r: nat)
    requires r in s.acts
    ensures Shrinks(s, s.Move(r, Failed).(entries := s.entries))
  {
  }

  /** Apart from its entry, an activation is like a call. */
  lemma ActivateShrinks(s: Registry, r: nat, ok: bool, current: bool, now: int, lru: Option<string>)
    requires r in s.acts
    ensures Shrinks(s, s.Activate(r, ok, current, now, lru).(entries := s.entries))
  {
    if !(ok && s.Live(r) && current) {
      FailShrinks(s, r);
    } else if |s.entries| >= s.maxEntries && lru.Some? && lru.value != "" {
      DropShrinks(s, lru.value);
      EvictThenInstall(s, s.Drop(lru.value), r, now);
    } else {
      EvictThenInstall(s, s, r, now);
    }
  }

  lemma TurnsOnce(s: Registry, ev: Event)
    requires s.Inv() && s.Possible(ev)
    ensures OneTurn(s, s.After(ev), ev)
  {
    if ev.Registers? {
      RegistersOnce(s, ev);
    } else if ev.Activates? {
      ActivateShrinks(s, ev.act, ev.ok, ev.current, ev.now, ev.lru);
    } else {
      CallShrinks(s, ev);
    }
  }

  /** revoke(e), stop(), and a registration that replaces what e had. */
  predicate Fences(s: Registry, ev: Event, e: string) {
    ev.Stops? || ev == Revokes(e) || (ev.Registers? && ev.entity == e && s.Register(e, ev.serialized, ev.room, ev.expiry, ev.same, ev.sound) != s)
  }

  lemma {:induction false} FenceHolds(states: seq<Registry>, events: seq<Event>, i: nat, j: nat, e: string)
    requires Trace(states, events) && i < |events| && Fences(states[i], events[i], e) && i < j < |states|
    ensures e in states[j].generations ==> states[j].generations[e] >= i
    ensures forall r | r in states[i].acts :: r < i && r in states[j].acts && states[j].acts[r].entity == states[i].acts[r].entity
    decreases j
  {
    TraceInv(states, events, j - 1);
    TurnsOnce(states[j - 1], events[j - 1]);
    assert states[j] == states[j - 1].After(events[j - 1]);
    if j > i + 1 {
      FenceHolds(states, events, i, j - 1, e);
    }
  }

  /**
    After a revoke, a stop or a replacement, the entry of e belongs to an activation begun no earlier,
    and so does the entry behind every room of e.
   */
  lemma RevokeHolds(states: seq<Registry>, events: seq<Event>, i: nat, j: nat, e: string, room: string)
    requires Trace(states, events) && i < |events| && Fences(states[i], events[i], e) && i < j < |states|
    ensures e in states[j].entries ==> states[j].entries[e].act >= i
    ensures room in states[j].rooms.owner && states[j].rooms.owner[room] == e ==> e in states[j].entries && states[j].entries[e].act >= i
  {
    TraceInv(states, events, j);
    FenceHolds(states, events, i, j, e);
  }

  /** A late activation neither installs anything nor drops what has replaced it. */
  lemma OvertakenDoesNothing(states: seq<Registry>, events: seq<Event>, i: nat, j: nat, r: nat)
    requires Trace(states, events) && i < j < |events| && r in states[i].acts && Fences(states[i], events[i], states[i].acts[r].entity)
    requires (events[j].Activates? || events[j].Catches? || events[j].Finishes?) && events[j].act == r
    ensures var s, t := states[j], states[j + 1];
      t.entries == s.entries && t.rooms == s.rooms && t.generations == s.generations
  {
    FenceHolds(states, events, i, j, states[i].acts[r].entity);
    TraceInv(states, events, i);
    assert !states[j].Live(r);
    assert states[j + 1] == states[j].After(events[j]);
  }

  /** Removing one room of the entity from both maps is a part of dropping the entity. */
  // ── What is granted, read and selected ─────────────────────────────────────

  lemma EvictKeepsOthers(s: Registry, lru: Option<string>)
    ensures var t := s.EvictLru(lru);
      && t.acts == s.acts && forall e | e in s.entries && lru != Some(e) :: e in t.entries && t.entries[e] == s.entries[e]
  {
  }

  lemma InstallIs(s: Registry, r: nat, now: int)
    requires r in s.acts
    ensures var t, a := s.Install(r, now), s.acts[r];
      && t.acts == s.acts[r := a.(stage := Landed)] && t.entries == s.entries[a.entity := Entry(r, a.expiry, now)]
      && (a.room.Some? ==> a.room.value in t.rooms.owner && t.rooms.owner[a.room.value] == a.entity && a.room.value !in t.rooms.selections)
  {
  }

  lemma LandedIs(s: Registry, ev: Event)
    requires s.Possible(ev) && ev.Activates? && ev.ok && ev.current && s.Live(ev.act)
    ensures var t, a := s.Activate(ev.act, true, true, ev.now, ev.lru), s.acts[ev.act];
      && t.acts == s.acts[ev.act := a.(stage := Landed)]
      && a.entity in t.entries && t.entries[a.entity] == Entry(ev.act, a.expiry, ev.now)
      && (a.room.Some? ==> a.room.value in t.rooms.owner && t.rooms.owner[a.room.value] == a.entity && a.room.value !in t.rooms.selections)
      && (forall e | e in s.entries && e != a.entity && (ev.lru != Some(e) || |s.entries| < s.maxEntries) :: e in t.entries && t.entries[e] == s.entries[e])
  {
    EvictKeepsOthers(s, ev.lru);
    InstallIs(if |s.entries| >= s.maxEntries then s.EvictLru(ev.lru) else s, ev.act, ev.now);
  }

  /** An activation installs its entry, and takes its room without a selection, exactly when it succeeded and still owns its entity; only a full registry loses another entry for it. */
  lemma ActivatesIff(s: Registry, ev: Event)
    requires s.Possible(ev) && ev.Activates?
    ensures var t, a := s.After(ev), s.acts[ev.act];
      && ev.act in t.acts
      && (t.acts[ev.act].stage.Landed? <==> ev.ok && ev.current && s.Live(ev.act))
      && (t.acts[ev.act].stage.Landed? ==>
            && a.entity in t.entries && t.entries[a.entity] == Entry(ev.act, a.expiry, ev.now)
            && (a.room.Some? ==> a.room.value in t.rooms.owner && t.rooms.owner[a.room.value] == a.entity && a.room.value !in t.rooms.selections)
            && forall e | e in s.entries && e != a.entity && (ev.lru != Some(e) || |s.entries| < s.maxEntries) ::
                 e in t.entries && t.entries[e] == s.entries[e])
      && (!t.acts[ev.act].stage.Landed? ==> t.acts[ev.act].stage.Failed? && t.entries == s.entries && t.rooms == s.rooms)
  {
    if ev.ok && ev.current && s.Live(ev.act) {
      LandedIs(s, ev);
    }
  }

  /** A failed activation takes every trace of its entity with it exactly when it still owns it; otherwise it leaves all of it alone. */
  lemma CatchIff(s: Registry, r: nat, current: bool)
    requires s.Possible(Catches(r, current))
    ensures var t, e := s.After(Catches(r, current)), s.acts[r].entity;
      if s.Live(r) && current then
        && e !in t.entries && e !in t.generations && e !in t.pending && (forall room | room in t.rooms.owner :: t.rooms.owner[room] != e)
        && forall other | other in s.entries && other != e :: other in t.entries && t.entries[other] == s.entries[other]
      else t.entries == s.entries && t.generations == s.generations && t.rooms == s.rooms
  {
  }

  /** The entity has an unexpired grant, and the room, if any is given, is not another's. */
  predicate MayRead(s: Registry, e: string, room: Option<string>, now: int, usable: bool) {
    && usable && e in s.entries && now < s.entries[e].expiry
    && (room.Some? && room.value in s.rooms.owner ==> s.rooms.owner[room.value] == e)
  }

  /** A read is allowed exactly then, and touches the entry; it drops a grant that has expired, and changes nothing otherwise. */
  lemma ReadIff(s: Registry, e: string, room: Option<string>, now: int, usable: bool)
    ensures var t := s.Act(Reads(e, room, now, usable));
      && (s.Reads(e, room, now, usable) <==> MayRead(s, e, room, now, usable))
      && (MayRead(s, e, room, now, usable) ==> t == s.(entries := s.entries[e := s.entries[e].(lastUsed := now)]))
      && (!MayRead(s, e, room, now, usable) ==>
            t == s || (e in s.entries && now >= s.entries[e].expiry && e !in t.entries && forall other | other in s.entries && other != e :: other in t.entries))
      && (usable && e in s.entries && now >= s.entries[e].expiry && (room.Some? && room.value in s.rooms.owner ==> s.rooms.owner[room.value] == e) ==>
            e !in t.entries && e !in t.generations && forall r | r in t.rooms.owner :: t.rooms.owner[r] != e)
  {
  }

  lemma MeetingIsSelected(s: Registry, e: string, room: string, meeting: string, now: int, later: int, usable: bool)
    requires MayRead(s, e, Some(room), now, usable) && later < s.entries[e].expiry
    ensures s.Act(SelectsMeeting(e, Some(room), Single(meeting), now, later, usable)).Selected(e, room) == Some(meeting)
    ensures s.Act(Selects(e, Some(room), Single(meeting), now, later, usable)).Selected(e, room) == Some(meeting)
  {
  }

  lemma NothingIsSelected(s: Registry, e: string, room: string, meeting: string, now: int, later: int, usable: bool)
    requires !(MayRead(s, e, Some(room), now, usable) && later < s.entries[e].expiry)
    ensures var t := s.Act(SelectsMeeting(e, Some(room), Single(meeting), now, later, usable));
      forall r | r in t.rooms.selections :: r in s.rooms.selections && t.rooms.selections[r] == s.rooms.selections[r]
    ensures var t := s.Act(Selects(e, Some(room), Single(meeting), now, later, usable));
      forall r | r in t.rooms.selections :: r in s.rooms.selections && t.rooms.selections[r] == s.rooms.selections[r]
  {
  }

  /** A meeting is selected, and is then the answer for that entity and room, exactly when the grant allows a read at both checks. */
  lemma SelectedIff(s: Registry, e: string, room: string, meeting: string, now: int, later: int, usable: bool)
    requires s.Selected(e, room) != Some(meeting)
    ensures s.Act(SelectsMeeting(e, Some(room), Single(meeting), now, later, usable)).Selected(e, room) == Some(meeting) <==>
              MayRead(s, e, Some(room), now, usable) && later < s.entries[e].expiry
    ensures s.Act(Selects(e, Some(room), Single(meeting), now, later, usable)).Selected(e, room) == Some(meeting) <==>
              MayRead(s, e, Some(room), now, usable) && later < s.entries[e].expiry
  {
    if MayRead(s, e, Some(room), now, usable) && later < s.entries[e].expiry {
      MeetingIsSelected(s, e, room, meeting, now, later, usable);
    } else {
      NothingIsSelected(s, e, room, meeting, now, later, usable);
      RefusedTakesNothing(s, e, room, meeting, now, later, usable);
    }
  }

  /** A refused selection leaves the room's selection, if it stays at all, with the owner it had. */
  lemma RefusedTakesNothing(s: Registry, e: string, room: string, meeting: string, now: int, later: int, usable: bool)
    requires !(MayRead(s, e, Some(room), now, usable) && later < s.entries[e].expiry)
    ensures var t := s.Act(SelectsMeeting(e, Some(room), Single(meeting), now, later, usable));
      room in t.rooms.owner ==> room in s.rooms.owner && t.rooms.owner[room] == s.rooms.owner[room]
    ensures var t := s.Act(Selects(e, Some(room), Single(meeting), now, later, usable));
      room in t.rooms.owner ==> room in s.rooms.owner && t.rooms.owner[room] == s.rooms.owner[room]
  {
  }

  /** Selecting nothing clears the room's selection, where the entity may read. */
  lemma ClearedIff(s: Registry, e: string, room: string, now: int, later: int, usable: bool)
    requires room in s.rooms.selections && e in s.entries && now < s.entries[e].expiry
    ensures room !in s.Act(Selects(e, Some(room), Nothing, now, later, usable)).rooms.selections <==> MayRead(s, e, Some(room), now, usable)
  {
  }

  /** A registration joins the one under way exactly when that has the same grant and room and its caller is current; else it fences what there is and starts. */
  lemma RegisterIff(s: Registry, ev: Event)
    requires s.Possible(ev) && ev.Registers? && s.turn !in s.acts
    ensures var t, e := s.After(ev), ev.entity;
      && (s.turn in t.acts <==>
            !(e in s.pending && s.pending[e] in s.acts && s.acts[s.pending[e]].serialized == ev.serialized
              && s.acts[s.pending[e]].room == ev.room && ev.same))
      && (s.turn in t.acts ==>
            && t.Live(s.turn) && e !in t.entries && e in t.pending && t.pending[e] == s.turn
            && t.acts[s.turn] == Activation(e, ev.serialized, ev.room, ev.expiry, if ev.sound then Activating else Failed)
            && forall r | r in t.rooms.owner :: t.rooms.owner[r] != e)
      && (s.turn !in t.acts ==> t == s.(turn := s.turn + 1))
  {
  }

  lemma DropOneRoom(rooms: Rooms, entity: string, room: string)
    requires room in rooms.owner && rooms.owner[room] == entity
    ensures Rooms(rooms.owner - {room}, rooms.selections - {room}, rooms.madeBy - {room}).Drop(entity) == rooms.Drop(entity)
  {
  }

  lemma NothingToDrop(rooms: Rooms, entity: string)
    requires forall room | room in rooms.owner :: rooms.owner[room] != entity
    ensures rooms.Drop(entity) == rooms
  {
  }

  class TranscriptAccessRegistry {
    const maxEntries: int
    var entries: map<string, Entry>
    var pending: map<string, nat>
    var generations: map<string, nat>
    var roomToEntity: map<string, string>
    var selectedMeetingByRoom: map<string, Selection>
    ghost var madeBy: map<string, string>
    var turn: nat
    /** The activations begun. */
    var acts: map<nat, Activation>

    ghost function RoomView(): Rooms
      reads this
    {
      Rooms(roomToEntity, selectedMeetingByRoom, madeBy)
    }

    ghost function View(): Registry
      reads this
    {
      Registry(maxEntries, entries, pending, generations, RoomView(), acts, turn)
    }

    constructor (maxEntries: int)
      ensures View() == Registry(maxEntries, map[], map[], map[], Rooms(map[], map[], map[]), map[], 0)
    {
      this.maxEntries := maxEntries;
      entries, pending, generations, roomToEntity, selectedMeetingByRoom := map[], map[], map[], map[], map[];
      madeBy, turn, acts := map[], 0, map[];
    }

    method Drop(entity: string)
      modifies this`entries, this`pending, this`generations, this`roomToEntity, this`selectedMeetingByRoom, this`madeBy
      ensures View() == old(View()).Drop(entity)
    {
      generations := generations - {entity};
      pending := pending - {entity};
      entries := entries - {entity};
      DropRooms(entity);
    }

    method DropRooms(entity: string)
      modifies this`roomToEntity, this`selectedMeetingByRoom, this`madeBy
      ensures RoomView() == old(RoomView()).Drop(entity)
    {
      var rest := roomToEntity.Keys;
      while rest != {}
        invariant RoomView().Drop(entity) == old(RoomView()).Drop(entity)
        invariant forall room | room in roomToEntity && roomToEntity[room] == entity :: room in rest
        decreases |rest|
      {
        var room :| room in rest;
        rest := rest - {room};
        if room in roomToEntity && roomToEntity[room] == entity {
          DropOneRoom(RoomView(), entity, room);
          roomToEntity := roomToEntity - {room};
          selectedMeetingByRoom := selectedMeetingByRoom - {room};
          madeBy := madeBy - {room};
        }
      }
      NothingToDrop(RoomView(), entity);
    }

    method Register(entity: string, serialized: string, room: Option<string>, expiry: int, same: bool, sound: bool)
      modifies this
      ensures View() == old(View()).Register(entity, serialized, room, expiry, same, sound)
    {
      if entity in pending && pending[entity] in acts && acts[pending[entity]].serialized == serialized && acts[pending[entity]].room == room && same {
        return;
      }
      Drop(entity);
      assert generations[entity := turn] == old(generations)[entity := turn] && pending[entity := turn] == old(pending)[entity := turn];
      generations := generations[entity := turn];
      pending := pending[entity := turn];
      acts := acts[turn := Activation(entity, serialized, room, expiry, if sound then Activating else Failed)];
    }

    function Live(r: nat): bool
      requires r in acts
      reads this`acts, this`generations
    {
      acts[r].entity in generations && generations[acts[r].entity] == r
    }

    /** The entry that evictLru chooses. */
    method LeastRecentlyUsed() returns (lru: Option<string>)
      ensures if entries == map[] then lru.None? else lru.Some? && View().LeastRecent(lru.value)
    {
      lru := None;
      var rest := entries.Keys;
      while rest != {}
        invariant rest <= entries.Keys && (lru.None? ==> rest == entries.Keys)
        invariant lru.Some? ==> lru.value in entries
        invariant lru.Some? ==> forall e | e in entries && e !in rest :: entries[lru.value].lastUsed <= entries[e].lastUsed
        decreases |rest|
      {
        var key :| key in rest;
        rest := rest - {key};
        if lru.None? || entries[key].lastUsed < entries[lru.value].lastUsed {
          lru := Some(key);
        }
      }
    }

    method Install(r: nat, now: int)
      requires r in acts
      modifies this`entries, this`roomToEntity, this`selectedMeetingByRoom, this`madeBy, this`acts
      ensures View() == old(View()).Install(r, now)
    {
      entries := entries[acts[r].entity := Entry(r, acts[r].expiry, now)];
      if acts[r].room.Some? {
        var room := acts[r].room.value;
        selectedMeetingByRoom, madeBy := selectedMeetingByRoom - {room}, madeBy - {room};
        roomToEntity := roomToEntity[room := acts[r].entity];
      }
      acts := acts[r := acts[r].(stage := Landed)];
    }

    /** activate() after its last await. */
    method Activate(r: nat, ok: bool, current: bool, now: int) returns (lru: Option<string>)
      requires r in acts && acts[r].stage.Activating?
      modifies this
      ensures old(View()).Possible(Activates(r, ok, current, now, lru))
      ensures View() == old(View()).Activate(r, ok, current, now, lru)
    {
      lru := LeastRecentlyUsed();
      if !(ok && Live(r) && current) {
        acts := acts[r := acts[r].(stage := Failed)];
        return;
      }
      if |entries| >= maxEntries && lru.Some? && lru.value != "" {
        Drop(lru.value);
      }
      Install(r, now);
    }

    /** The finally block of register(). */
    method Unlist(r: nat)
      requires r in acts
      modifies this`pending, this`acts
      ensures View() == old(View()).Unlist(r)
    {
      var e := acts[r].entity;
      if e in pending && pending[e] == r {
        pending := pending - {e};
      }
      acts := acts[r := acts[r].(stage := Gone)];
    }

    /** register() after its activation has thrown. */
    method Catch(r: nat, current: bool)
      requires r in acts
      modifies this
      ensures View() == old(View()).Catch(r, current)
    {
      if Live(r) && current {
        Drop(acts[r].entity);
      }
      Unlist(r);
    }

    method ReaderFor(entity: string, room: Option<string>, now: int, usable: bool) returns (ok: bool)
      modifies this`entries, this`pending, this`generations, this`roomToEntity, this`selectedMeetingByRoom, this`madeBy
      ensures View() == old(View()).Read(entity, room, now, usable) && ok == old(View()).Reads(entity, room, now, usable)
    {
      if room.Some? && room.value in roomToEntity && roomToEntity[room.value] != entity {
        return false;
      }
      if entity !in entries || !usable {
        return false;
      }
      if now >= entries[entity].expiry {
        Drop(entity);
        return false;
      }
      entries := entries[entity := entries[entity].(lastUsed := now)];
      return true;
    }

    method SetSelection(entity: string, room: Option<string>, selection: Selection, now: int, later: int, usable: bool)
      modifies this`entries, this`pending, this`generations, this`roomToEntity, this`selectedMeetingByRoom, this`madeBy
      ensures View() == old(View()).Select(entity, room, selection, now, later, usable)
    {
      if room.None? {
        return;
      }
      var ok := ReaderFor(entity, room, now, usable);
      if !ok {
        return;
      }
      if selection.Nothing? {
        selectedMeetingByRoom, madeBy := selectedMeetingByRoom - {room.value}, madeBy - {room.value};
        return;
      }
      ok := ReaderFor(entity, room, later, usable);
      if !ok {
        return;
      }
      roomToEntity := roomToEntity[room.value := entity];
      selectedMeetingByRoom, madeBy := selectedMeetingByRoom[room.value := selection], madeBy[room.value := entity];
    }

    method SelectMeeting(entity: string, room: Option<string>, meeting: string, now: int, later: int, usable: bool)
      modifies this`entries, this`pending, this`generations, this`roomToEntity, this`selectedMeetingByRoom, this`madeBy
      ensures View() == old(View()).SelectMeeting(entity, room, Single(meeting), now, later, usable)
    {
      if room.None? {
        return;
      }
      var ok := ReaderFor(entity, room, now, usable);
      if !ok {
        return;
      }
      roomToEntity := roomToEntity[room.value := entity];
      ok := ReaderFor(entity, room, later, usable);
      if ok {
        selectedMeetingByRoom, madeBy := selectedMeetingByRoom[room.value := Single(meeting)], madeBy[room.value := entity];
      }
    }

    method Stop()
      modifies this`entries, this`pending, this`generations, this`roomToEntity, this`selectedMeetingByRoom, this`madeBy
      ensures View() == old(View()).Stop()
    {
      entries, roomToEntity, selectedMeetingByRoom, pending, generations := map[], map[], map[], map[], map[];
      madeBy := map[];
    }
  }
}
