/**
  The stored form of one connection: heldSession() of packages/eliza-service/src/held-sessions.ts,
  parseHeldSession() and heldSessionExpiry() of packages/eliza-service/src/delegation-store.ts, and
  the text of a revision (packages/eliza-service/src/session-store.ts).

  JSON.stringify and JSON.parse are taken to be inverse on the Json trees below, where a member that
  is `undefined` is absent. A number literal too large for a double parses to Infinity.
 */
module HeldRecords {
  import opened Options

  datatype Json = Undefined | JNull | JBool(b: bool) | JNumber(n: real) | JInfinity | JString(s: string) | JObject(o: Members)

  /** The members that a reader of sessions looks at; any other member of an object is never read. */
  datatype Members = Members(
    v: Json, kind: Json, appId: Json, agentId: Json, entityId: Json, revision: Json, state: Json,
    delegations: Json, expiries: Json, roomId: Json, revokedAt: Json, storedAt: Json,
    memory: Json, transcripts: Json)

  datatype HeldState = HeldActive | HeldRevoked

  datatype Scope = Scope(appId: string, agentId: string)

  datatype Held = Held(
    scope: Scope,
    entityId: string,
    revision: string,
    state: HeldState,
    memory: Option<string>,
    transcripts: Option<string>,
    memoryExpiry: Option<real>,
    transcriptsExpiry: Option<real>,
    roomId: Option<string>,
    revokedAt: Option<real>,
    storedAt: real)

  /** SessionRecord, without the agent id that the scope carries. */
  datatype Record = Record(
    memory: string,
    transcripts: Option<string>,
    roomId: Option<string>,
    exp: Option<real>,
    memoryExpiry: Option<real>,
    transcriptsExpiry: Option<real>)

  const MAX_REVISION_LENGTH := 256

  function Text(value: Option<string>): Json { if value.Some? then JString(value.value) else Undefined }

  function Time(value: Option<real>): Json { if value.Some? then JNumber(value.value) else Undefined }

  function Pair(memory: Json, transcripts: Json): Json {
    JObject(Members(Undefined, Undefined, Undefined, Undefined, Undefined, Undefined, Undefined,
                    Undefined, Undefined, Undefined, Undefined, Undefined, memory, transcripts))
  }

  /** What JSON.stringify keeps of a held session. */
  function Encode(h: Held): Json {
    JObject(Members(
      JNumber(1.0), JString("tinychat-session"), JString(h.scope.appId), JString(h.scope.agentId), JString(h.entityId),
      JString(h.revision), JString(if h.state.HeldActive? then "active" else "revoked"),
      Pair(Text(h.memory), Text(h.transcripts)), Pair(Time(h.memoryExpiry), Time(h.transcriptsExpiry)),
      Text(h.roomId), Time(h.revokedAt), JNumber(h.storedAt), Undefined, Undefined))
  }

  predicate OptionalString(field: Json) { field.Undefined? || field.JString? }

  predicate OptionalTime(field: Json) { field.Undefined? || field.JNumber? }

  function ToString(field: Json): Option<string>
    requires OptionalString(field)
  {
    if field.JString? then Some(field.s) else None
  }

  function ToTime(field: Json): Option<real>
    requires OptionalTime(field)
  {
    if field.JNumber? then Some(field.n) else None
  }

  /** The shape check of parseHeldSession. */
  predicate Valid(scope: Scope, entityId: string, value: Json) {
    && value.JObject?
    && var o := value.o;
    && o.v == JNumber(1.0) && o.kind == JString("tinychat-session")
    && o.appId == JString(scope.appId) && o.agentId == JString(scope.agentId) && o.entityId == JString(entityId)
    && o.revision.JString? && 0 < |o.revision.s| <= MAX_REVISION_LENGTH
    && (o.state == JString("active") || o.state == JString("revoked"))
    && o.delegations.JObject?
    && OptionalString(o.delegations.o.memory) && OptionalString(o.delegations.o.transcripts)
    && (o.state == JString("revoked") || (o.delegations.o.memory.JString? && o.delegations.o.transcripts.JString?))
    && o.expiries.JObject?
    && OptionalTime(o.expiries.o.memory) && OptionalTime(o.expiries.o.transcripts)
    && OptionalString(o.roomId) && OptionalTime(o.revokedAt)
    && o.storedAt.JNumber?
  }

  /** parseHeldSession: None is `{ ok: false, reason: "invalid" }`. */
  function Parse(scope: Scope, entityId: string, value: Json): Option<Held> {
    if Valid(scope, entityId, value) then
      var o := value.o;
      Some(Held(scope, entityId, o.revision.s,
                if o.state == JString("active") then HeldActive else HeldRevoked,
                ToString(o.delegations.o.memory), ToString(o.delegations.o.transcripts),
                ToTime(o.expiries.o.memory), ToTime(o.expiries.o.transcripts),
                ToString(o.roomId), ToTime(o.revokedAt), o.storedAt.n))
    else None
  }

  /** What a session must satisfy to be read back: bounded revision, and both grants when active. */
  predicate Storable(h: Held) {
    && 0 < |h.revision| <= MAX_REVISION_LENGTH
    && (h.state.HeldActive? ==> h.memory.Some? && h.transcripts.Some?)
  }

  /** A stored session is read back unchanged exactly when it is storable and read under its own key. */
  lemma ReadBack(h: Held, scope: Scope, entityId: string)
    ensures Parse(scope, entityId, Encode(h)) == Some(h) <==> Storable(h) && scope == h.scope && entityId == h.entityId
    ensures Parse(scope, entityId, Encode(h)).Some? ==> Parse(scope, entityId, Encode(h)) == Some(h)
  {
    assert "active" != "revoked" by { assert |"active"| != |"revoked"|; }
  }

  /** Whatever the space returns, an accepted session is storable, so re-publishing it is lossless. */
  lemma AcceptedIsStorable(scope: Scope, entityId: string, value: Json)
    requires Parse(scope, entityId, value).Some?
    ensures var h := Parse(scope, entityId, value).value;
      Storable(h) && Parse(scope, entityId, Encode(h)) == Some(h)
  {
    ReadBack(Parse(scope, entityId, value).value, scope, entityId);
  }

  function Earliest(a: Option<real>, b: Option<real>): Option<real> {
    if a.None? then b else if b.None? then a else if a.value <= b.value then a else b
  }

  /** A bundle expires when the first of its grants that expire does. */
  lemma EarliestIs(a: Option<real>, b: Option<real>)
    ensures Earliest(a, b).None? <==> a.None? && b.None?
    ensures Earliest(a, b).Some? ==>
              && (Earliest(a, b) == a || Earliest(a, b) == b)
              && (a.Some? ==> Earliest(a, b).value <= a.value) && (b.Some? ==> Earliest(a, b).value <= b.value)
  {
  }

  /** heldSession(): what an active record is published as. */
  function Publish(scope: Scope, entityId: string, revision: string, record: Record, now: real): Held {
    Held(scope, entityId, revision, HeldActive, Some(record.memory), record.transcripts,
         record.memoryExpiry, record.transcriptsExpiry, record.roomId, None, now)
  }

  /** The record a reload builds from an active held session. */
  function Reload(h: Held): Record
    requires h.memory.Some?
  {
    Record(h.memory.value, h.transcripts, h.roomId, Earliest(h.memoryExpiry, h.transcriptsExpiry), h.memoryExpiry, h.transcriptsExpiry)
  }

  /** bundleRecord(): `exp` is the earliest known expiry. */
  predicate Bundled(record: Record) {
    record.transcripts.Some? && record.exp == Earliest(record.memoryExpiry, record.transcriptsExpiry)
  }

  /** Restart round trip: publish, store, list, read and rebuild give the record and revision back. */
  lemma RestartReadsBack(scope: Scope, entityId: string, revision: string, record: Record, now: real)
    requires Bundled(record) && 0 < |revision| <= MAX_REVISION_LENGTH
    ensures var read := Parse(scope, entityId, Encode(Publish(scope, entityId, revision, record, now)));
      && read.Some? && read.value.state.HeldActive? && read.value.memory.Some?
      && read.value.revision == revision && Reload(read.value) == record
  {
    ReadBack(Publish(scope, entityId, revision, record, now), scope, entityId);
  }

  function Decimal(n: nat): (text: string)
    ensures text != [] && ':' !in text
  {
    var digit := ['0' + (n % 10) as char];
    if n < 10 then digit else Decimal(n / 10) + digit
  }

  lemma {:induction false} DecimalInjective(m: nat, n: nat)
    requires Decimal(m) == Decimal(n)
    ensures m == n
  {
    var a, b := Decimal(m), Decimal(n);
    assert a[|a| - 1] == '0' + (m % 10) as char;
    assert b[|b| - 1] == '0' + (n % 10) as char;
    assert m % 10 == n % 10;
    assert m >= 10 ==> a[..|a| - 1] == Decimal(m / 10);
    assert n >= 10 ==> b[..|b| - 1] == Decimal(n / 10);
    if m >= 10 && n >= 10 {
      DecimalInjective(m / 10, n / 10);
    }
  }

  /** `${instance}:${sequence}` */
  function RevisionText(instance: string, number: nat): string { instance + ":" + Decimal(number) }

  /** Two revisions have the same text only when process id and number agree (a UUID has no colon). */
  lemma RevisionTextInjective(i: string, m: nat, j: string, n: nat)
    requires ':' !in i && ':' !in j
    requires RevisionText(i, m) == RevisionText(j, n)
    ensures i == j && m == n
  {
    var text := RevisionText(i, m);
    assert text[|i|] == ':' && text[|j|] == ':';
    forall k | 0 <= k < |i| ensures text[k] != ':' {
      assert text[k] == i[k];
    }
    forall k | 0 <= k < |j| ensures text[k] != ':' {
      assert text[k] == j[k];
    }
    assert |i| == |j|;
    assert i == text[..|i|] == text[..|j|] == j;
    assert Decimal(m) == text[|i| + 1..] == text[|j| + 1..] == Decimal(n);
    DecimalInjective(m, n);
  }
}
