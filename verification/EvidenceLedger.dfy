/**
  packages/eliza-service/src/tasks/evidence.ts, mergeMeetingOutcomes and admitMeetingToolData: the ledger of
  one run, in which every meeting and every piece of evidence keeps the alias it was first given.
 */
module EvidenceLedgers {
  import opened Collections
  import opened MeetingEvidence
  import opened Options

  /** evidenceIdentity: everything but the id, which can change between projections of the same evidence. */
  function Identity(e: Evidence): Evidence { e.(id := Local("")) }

  datatype Key = Key(access: string, source: string, ref: string)

  /** A ledger's meeting: its number, its evidence identities in the order of their numbers, and its outcome. */
  datatype Meeting = Meeting(number: nat, key: Key, evidenceKeys: seq<Evidence>, outcome: Outcome)

  datatype Ledger = Ledger(access: string, meetings: seq<Meeting>)
  {
    function KeyOf(o: Outcome): Key { Key(access, o.source, o.ref) }
  }

  /** The first place of `key` in the ledger, or of an identity in a list. */
  function Find(meetings: seq<Meeting>, key: Key): (r: Option<nat>)
    ensures r.Some? ==> r.value < |meetings| && meetings[r.value].key == key
    ensures r.None? ==> forall i | 0 <= i < |meetings| :: meetings[i].key != key
    decreases |meetings|
  {
    if meetings == [] then None
    else
      var r := Find(meetings[..|meetings| - 1], key);
      if r.Some? then r
      else if meetings[|meetings| - 1].key == key then Some(|meetings| - 1) else None
  }

  function IndexOf(keys: seq<Evidence>, x: Evidence): (n: nat)
    ensures n <= |keys| && (n < |keys| ==> keys[n] == x) && (n == |keys| ==> x !in keys) && x !in keys[..n]
  {
    if keys == [] then 0 else if keys[0] == x then 0 else 1 + IndexOf(keys[1..], x)
  }

  /** What an outcome lets an earlier piece of evidence do: a failure drops all but metadata, a failed body what quotes it. */
  predicate Keeps(o: Outcome, e: Evidence) {
    if !o.state.Read? && !o.state.MetadataOnly? then e.kind.MetadataItem?
    else if !o.body.state.NotRequested? && !o.body.state.Present? then !e.FromBody()
    else true
  }

  function Kept(o: Outcome, es: seq<Evidence>): seq<Evidence> {
    if es == [] then []
    else Kept(o, es[..|es| - 1]) + if Keeps(o, es[|es| - 1]) then [es[|es| - 1]] else []
  }

  predicate HasId(es: seq<Evidence>, id: Id) { exists i | 0 <= i < |es| :: es[i].id == id }

  /** The evidence of one meeting while an outcome is added to it. */
  datatype Shelf = Shelf(number: nat, keys: seq<Evidence>, evidence: seq<Evidence>)
  {
    /** The alias of an identity: its old number, or the next one. */
    function AliasOf(e: Evidence): Id { Alias(number, IndexOf(keys, Identity(e)) + 1) }

    function Add(item: Evidence): Shelf {
      var known := if Identity(item) in keys then keys else keys + [Identity(item)];
      Shelf(number, known, if HasId(evidence, AliasOf(item)) then evidence else evidence + [item.(id := AliasOf(item))])
    }

    function AddAll(items: seq<Evidence>): Shelf
      decreases |items|
    {
      if items == [] then this else AddAll(items[..|items| - 1]).Add(items[|items| - 1])
    }

    /** Identities are numbered once each, and each piece of evidence carries its identity's number, once. */
    ghost predicate Valid() {
      && DistinctKeys(keys)
      && (forall i | 0 <= i < |evidence| :: Identity(evidence[i]) in keys && evidence[i].id == AliasOf(evidence[i]))
      && DistinctIds(evidence)
    }
  }

  /** The shelf on which an outcome's evidence is put. */
  function Cleared(l: Ledger, o: Outcome): Shelf {
    match Find(l.meetings, l.KeyOf(o))
    case Some(i) => Shelf(l.meetings[i].number, l.meetings[i].evidenceKeys, Kept(o, l.meetings[i].outcome.evidence))
    case None => Shelf(|l.meetings| + 1, [], [])
  }

  /** A metadata outcome does not replace one that says more. */
  function Selected(l: Ledger, o: Outcome): Outcome {
    match Find(l.meetings, l.KeyOf(o))
    case Some(i) => if o.state.MetadataOnly? && !l.meetings[i].outcome.state.MetadataOnly? then l.meetings[i].outcome else o
    case None => o
  }

  function Updated(l: Ledger, o: Outcome): Meeting {
    var shelf := Cleared(l, o).AddAll(o.evidence);
    var selected := Selected(l, o);
    Meeting(shelf.number, l.KeyOf(o), shelf.keys,
            selected.(evidence := shelf.evidence, coverage := selected.coverage.(retained := |shelf.evidence|)))
  }

  function MergeOne(l: Ledger, o: Outcome): Ledger {
    match Find(l.meetings, l.KeyOf(o))
    case Some(i) => l.(meetings := l.meetings[i := Updated(l, o)])
    case None => l.(meetings := l.meetings + [Updated(l, o)])
  }

  function Merge(l: Ledger, os: seq<Outcome>): Ledger
    decreases |os|
  {
    if os == [] then l else MergeOne(Merge(l, os[..|os| - 1]), os[|os| - 1])
  }

  function ShelfOf(m: Meeting): Shelf { Shelf(m.number, m.evidenceKeys, m.outcome.evidence) }

  /** Meetings are numbered in order, one for each identity. */
  ghost predicate Valid(l: Ledger) {
    && (forall i {:trigger l.meetings[i]} | 0 <= i < |l.meetings| ::
          var m := l.meetings[i];
          && m.number == i + 1 && m.key == l.KeyOf(m.outcome) && ShelfOf(m).Valid() && m.outcome.coverage.retained == |m.outcome.evidence|)
    && (forall i, j | 0 <= i < j < |l.meetings| :: l.meetings[i].key != l.meetings[j].key)
  }

  lemma {:induction false} IndexStays(a: seq<Evidence>, b: seq<Evidence>, x: Evidence)
    requires a <= b && x in a
    ensures IndexOf(b, x) == IndexOf(a, x)
  {
    if a[0] != x {
      IndexStays(a[1..], b[1..], x);
    }
  }

  lemma IndexAppend(keys: seq<Evidence>, x: Evidence, y: Evidence)
    ensures x in keys ==> IndexOf(keys + [y], x) == IndexOf(keys, x)
    ensures x !in keys ==> IndexOf(keys + [x], x) == |keys|
  {
    if x in keys {
      IndexStays(keys, keys + [y], x);
    } else {
      assert (keys + [x])[|keys|] == x && forall k | 0 <= k < |keys| :: (keys + [x])[k] == keys[k] && keys[k] in keys;
    }
  }

  lemma HasIdIn(es: seq<Evidence>, id: Id)
    ensures HasId(es, id) <==> exists e :: e in es && e.id == id
  {
  }

  /** Numbering a new identity leaves the old numbers as they are. */
  lemma NumbersStay(s: Shelf, item: Evidence, e: Evidence)
    requires Identity(e) in s.keys
    ensures Identity(e) in s.Add(item).keys && s.Add(item).AliasOf(e) == s.AliasOf(e)
  {
    IndexAppend(s.keys, Identity(e), Identity(item));
  }

  lemma NewNumber(s: Shelf, item: Evidence)
    ensures Identity(item) in s.Add(item).keys && s.Add(item).AliasOf(item) == s.AliasOf(item)
    ensures Identity(item.(id := s.AliasOf(item))) == Identity(item)
  {
    IndexAppend(s.keys, Identity(item), Identity(item));
  }

  predicate DistinctIds(es: seq<Evidence>) { forall i, j | 0 <= i < j < |es| :: es[i].id != es[j].id }

  ghost predicate DistinctKeys(keys: seq<Evidence>) { forall i, j | 0 <= i < j < |keys| :: keys[i] != keys[j] }

  lemma AddKeepsKeys(s: Shelf, item: Evidence)
    requires DistinctKeys(s.keys)
    ensures DistinctKeys(s.Add(item).keys) && s.keys <= s.Add(item).keys
  {
    if Identity(item) !in s.keys {
      assert forall i | 0 <= i < |s.keys| :: s.keys[i] in s.keys;
    }
  }

  lemma AddKeepsNames(s: Shelf, item: Evidence, i: nat)
    requires s.Valid() && i < |s.Add(item).evidence|
    ensures var t := s.Add(item); Identity(t.evidence[i]) in t.keys && t.evidence[i].id == t.AliasOf(t.evidence[i])
  {
    var t := s.Add(item);
    if i < |s.evidence| {
      assert t.evidence[i] == s.evidence[i];
      NumbersStay(s, item, s.evidence[i]);
    } else {
      assert t.evidence[i] == item.(id := s.AliasOf(item));
      NewNumber(s, item);
    }
  }

  lemma AddKeepsDistinct(s: Shelf, item: Evidence)
    requires DistinctIds(s.evidence)
    ensures DistinctIds(s.Add(item).evidence) && s.evidence <= s.Add(item).evidence
  {
    if !HasId(s.evidence, s.AliasOf(item)) {
      forall i | 0 <= i < |s.evidence| ensures s.evidence[i].id != s.AliasOf(item) {
      }
    }
  }

  lemma AddKeepsValid(s: Shelf, item: Evidence)
    requires s.Valid()
    ensures s.Add(item).Valid() && s.keys <= s.Add(item).keys && s.evidence <= s.Add(item).evidence
  {
    AddKeepsKeys(s, item);
    AddKeepsDistinct(s, item);
    forall i: nat | i < |s.Add(item).evidence|
      ensures var t := s.Add(item); Identity(t.evidence[i]) in t.keys && t.evidence[i].id == t.AliasOf(t.evidence[i])
    {
      AddKeepsNames(s, item, i);
    }
  }

  lemma {:induction false} AddAllKeepsValid(s: Shelf, items: seq<Evidence>)
    requires s.Valid()
    ensures var t := s.AddAll(items); t.Valid() && s.keys <= t.keys && s.evidence <= t.evidence && t.number == s.number
    decreases |items|
  {
    if items != [] {
      AddAllKeepsValid(s, items[..|items| - 1]);
      AddKeepsValid(s.AddAll(items[..|items| - 1]), items[|items| - 1]);
    }
  }

  lemma {:induction false} KeptFrom(o: Outcome, es: seq<Evidence>)
    ensures forall e :: e in Kept(o, es) <==> e in es && Keeps(o, e)
  {
    if es != [] {
      KeptFrom(o, es[..|es| - 1]);
      assert es == es[..|es| - 1] + [es[|es| - 1]];
    }
  }

  lemma {:induction false} KeptDistinct(o: Outcome, es: seq<Evidence>)
    requires DistinctIds(es)
    ensures DistinctIds(Kept(o, es))
  {
    if es != [] {
      var front, last := es[..|es| - 1], es[|es| - 1];
      KeptDistinct(o, front);
      KeptFrom(o, front);
      forall i | 0 <= i < |Kept(o, front)| ensures Kept(o, front)[i].id != last.id {
        assert Kept(o, front)[i] in Kept(o, front);
        var k :| 0 <= k < |front| && front[k] == Kept(o, front)[i];
        assert es[k].id != es[|es| - 1].id;
      }
    }
  }

  /** Dropping evidence frees no number. */
  lemma KeptIsValid(s: Shelf, o: Outcome)
    requires s.Valid()
    ensures s.(evidence := Kept(o, s.evidence)).Valid()
  {
    KeptFrom(o, s.evidence);
    KeptDistinct(o, s.evidence);
    var t := s.(evidence := Kept(o, s.evidence));
    forall i | 0 <= i < |t.evidence| ensures Identity(t.evidence[i]) in t.keys && t.evidence[i].id == t.AliasOf(t.evidence[i]) {
      assert t.evidence[i] in s.evidence;
    }
  }

  lemma ClearedIsValid(l: Ledger, o: Outcome)
    requires Valid(l)
    ensures Cleared(l, o).Valid()
  {
    var r := Find(l.meetings, l.KeyOf(o));
    if r.Some? { KeptIsValid(ShelfOf(l.meetings[r.value]), o); }
  }

  lemma MergeOneKeepsValid(l: Ledger, o: Outcome)
    requires Valid(l)
    ensures Valid(MergeOne(l, o)) && MergeOne(l, o).access == l.access
  {
    ClearedIsValid(l, o);
    AddAllKeepsValid(Cleared(l, o), o.evidence);
    var m := Updated(l, o);
    var r := Find(l.meetings, l.KeyOf(o));
    assert ShelfOf(m) == Cleared(l, o).AddAll(o.evidence);
    if r.Some? {
      assert l.meetings[r.value].key == l.KeyOf(l.meetings[r.value].outcome);
    }
  }

  /** A meeting's number, and the numbers of the identities it has had, are still what they were. */
  ghost predicate KeepsNames(l: Ledger, t: Ledger) {
    && |l.meetings| <= |t.meetings|
    && forall i {:trigger t.meetings[i]} | 0 <= i < |l.meetings| ::
         && t.meetings[i].number == l.meetings[i].number && t.meetings[i].key == l.meetings[i].key
         && l.meetings[i].evidenceKeys <= t.meetings[i].evidenceKeys
  }

  lemma MergeOneKeepsNames(l: Ledger, o: Outcome)
    requires Valid(l)
    ensures KeepsNames(l, MergeOne(l, o))
  {
    ClearedIsValid(l, o);
    AddAllKeepsValid(Cleared(l, o), o.evidence);
  }

  lemma {:induction false} MergeKeepsValid(l: Ledger, os: seq<Outcome>)
    requires Valid(l)
    ensures Valid(Merge(l, os)) && Merge(l, os).access == l.access && KeepsNames(l, Merge(l, os))
    decreases |os|
  {
    if os != [] {
      MergeKeepsValid(l, os[..|os| - 1]);
      MergeOneKeepsValid(Merge(l, os[..|os| - 1]), os[|os| - 1]);
      MergeOneKeepsNames(Merge(l, os[..|os| - 1]), os[|os| - 1]);
    }
  }

  predicate NamedBy(m: Meeting, key: Key, x: Evidence, id: Id) {
    m.key == key && x in m.evidenceKeys && id == Alias(m.number, IndexOf(m.evidenceKeys, x) + 1)
  }

  /** Identity `x` of the meeting `key` has been given the alias `id`. */
  ghost predicate Named(l: Ledger, key: Key, x: Evidence, id: Id) {
    exists i :: 0 <= i < |l.meetings| && NamedBy(l.meetings[i], key, x, id)
  }

  /**
    Over any merges, whatever is dropped and returns: a name given stays given, and a piece of evidence
    in the ledger always carries the name of its identity.
   */
  lemma NamesAreForever(l: Ledger, os: seq<Outcome>, key: Key, x: Evidence, id: Id)
    requires Valid(l) && Named(l, key, x, id)
    ensures Named(Merge(l, os), key, x, id)
  {
    MergeKeepsValid(l, os);
    var i :| 0 <= i < |l.meetings| && NamedBy(l.meetings[i], key, x, id);
    var m := Merge(l, os).meetings[i];
    IndexStays(l.meetings[i].evidenceKeys, m.evidenceKeys, x);
    assert NamedBy(m, key, x, id);
  }

  lemma NamedOnce(m: Meeting, key: Key, x: Evidence, key2: Key, x2: Evidence, id: Id)
    requires NamedBy(m, key, x, id) && NamedBy(m, key2, x2, id)
    ensures key == key2 && x == x2
  {
    var n := IndexOf(m.evidenceKeys, x);
    assert m.evidenceKeys[n] == x && IndexOf(m.evidenceKeys, x2) == n;
  }

  /** No name is given twice: it stands for one identity of one meeting. */
  lemma NamesAreUnique(l: Ledger, key: Key, x: Evidence, key2: Key, x2: Evidence, id: Id)
    requires Valid(l) && Named(l, key, x, id) && Named(l, key2, x2, id)
    ensures key == key2 && x == x2
  {
    var i :| 0 <= i < |l.meetings| && NamedBy(l.meetings[i], key, x, id);
    var j :| 0 <= j < |l.meetings| && NamedBy(l.meetings[j], key2, x2, id);
    assert l.meetings[i].number == i + 1 && l.meetings[j].number == j + 1;
    assert i == j;
    NamedOnce(l.meetings[i], key, x, key2, x2, id);
  }

  /** Every piece of evidence in a ledger carries its name. */
  lemma EvidenceIsNamed(l: Ledger, i: nat, e: Evidence)
    requires Valid(l) && i < |l.meetings| && e in l.meetings[i].outcome.evidence
    ensures Named(l, l.meetings[i].key, Identity(e), e.id)
  {
    var k :| 0 <= k < |l.meetings[i].outcome.evidence| && l.meetings[i].outcome.evidence[k] == e;
    assert ShelfOf(l.meetings[i]).Valid();
    assert NamedBy(l.meetings[i], l.meetings[i].key, Identity(e), e.id);
  }

  /** What putting items on a shelf adds behind its evidence. */
  function Added(s: Shelf, items: seq<Evidence>): seq<Evidence>
    requires s.Valid()
  {
    AddAllKeepsValid(s, items);
    s.AddAll(items).evidence[|s.evidence|..]
  }

  /** What of `new` is not among `es`, in order. */
  function Missing(es: seq<Evidence>, news: seq<Evidence>): seq<Evidence> {
    if news == [] then []
    else Missing(es, news[..|news| - 1]) + if HasId(es, news[|news| - 1].id) then [] else [news[|news| - 1]]
  }

  lemma {:induction false} MissingFrom(es: seq<Evidence>, news: seq<Evidence>)
    ensures forall e :: e in Missing(es, news) <==> e in news && !HasId(es, e.id)
  {
    if news != [] {
      MissingFrom(es, news[..|news| - 1]);
      assert news == news[..|news| - 1] + [news[|news| - 1]];
    }
  }

  /** `t` has the numbers that `s` has after the items, and all of its evidence. */
  ghost predicate Resumes(s: Shelf, items: seq<Evidence>, t: Shelf) {
    && s.Valid() && t.number == s.number && s.AddAll(items).keys <= t.keys
    && forall e | e in s.evidence :: HasId(t.evidence, e.id)
  }

  lemma AddAllSplits(s: Shelf, items: seq<Evidence>)
    requires s.Valid()
    ensures s.AddAll(items).Valid() && s.AddAll(items).evidence == s.evidence + Added(s, items)
  {
    AddAllKeepsValid(s, items);
    PrefixAndRest(s.evidence, s.AddAll(items).evidence);
  }

  lemma MissingLast(es: seq<Evidence>, news: seq<Evidence>, x: Evidence)
    ensures Missing(es, news + [x]) == Missing(es, news) + (if HasId(es, x.id) then [] else [x])
  {
    assert (news + [x])[..|news|] == news;
  }

  lemma MissingMore(es: seq<Evidence>, news: seq<Evidence>, x: Evidence)
    ensures es + Missing(es, news + [x]) == if HasId(es, x.id) then es + Missing(es, news) else es + Missing(es, news) + [x]
  {
    MissingLast(es, news, x);
    if HasId(es, x.id) {
      assert Missing(es, news) + [] == Missing(es, news);
    } else {
      ConcatAssociates(es, Missing(es, news), [x]);
    }
  }

  lemma MissingPresent(es: seq<Evidence>, news: seq<Evidence>, id: Id)
    ensures HasId(es + Missing(es, news), id) <==> HasId(es, id) || HasId(news, id)
  {
    MissingFrom(es, news);
    HasIdIn(es, id);
    HasIdIn(news, id);
    HasIdIn(es + Missing(es, news), id);
  }

  /** Adding an item whose identity has a number already. */
  lemma AddKnown(t: Shelf, item: Evidence, id: Id)
    requires Identity(item) in t.keys && t.AliasOf(item) == id
    ensures t.Add(item) == if HasId(t.evidence, id) then t else t.(evidence := t.evidence + [item.(id := id)])
  {
  }

  lemma AddBehind(a: Shelf, es: seq<Evidence>, news: seq<Evidence>, item: Evidence)
    requires a.evidence == es + news
    ensures a.Add(item).evidence[|es|..] == if HasId(a.evidence, a.AliasOf(item)) then news else news + [item.(id := a.AliasOf(item))]
  {
  }

  lemma PresentAgain(es: seq<Evidence>, news: seq<Evidence>, again: seq<Evidence>, id: Id)
    requires forall e | e in es :: HasId(again, e.id)
    ensures HasId(again + Missing(again, news), id) <==> HasId(again, id) || HasId(es + news, id)
  {
    MissingPresent(again, news, id);
    HasIdIn(es, id);
    HasIdAppend(es, news, id);
  }

  /** One more item: `a` is the shelf so far in the first round, with `news` behind `es`; `t` is the shelf of the second. */
  lemma AddLast(a: Shelf, es: seq<Evidence>, news: seq<Evidence>, t: Shelf, item: Evidence)
    requires a.number == t.number && a.Add(item).keys <= t.keys && a.evidence == es + news
    requires forall e | e in es :: HasId(t.evidence, e.id)
    ensures var more := a.Add(item).evidence[|es|..];
      t.(evidence := t.evidence + Missing(t.evidence, news)).Add(item) == t.(evidence := t.evidence + Missing(t.evidence, more))
  {
    var id := a.AliasOf(item);
    assert Identity(item) in t.keys && t.AliasOf(item) == id by {
      NewNumber(a, item);
      IndexStays(a.Add(item).keys, t.keys, Identity(item));
    }
    var u := t.(evidence := t.evidence + Missing(t.evidence, news));
    assert u.AliasOf(item) == id;
    AddKnown(u, item, id);
    PresentAgain(es, news, t.evidence, id);
    AddBehind(a, es, news, item);
    MissingMore(t.evidence, news, item.(id := id));
  }

  lemma HasIdAppend(a: seq<Evidence>, b: seq<Evidence>, id: Id)
    ensures HasId(a + b, id) <==> HasId(a, id) || HasId(b, id)
  {
    HasIdIn(a, id);
    HasIdIn(b, id);
    HasIdIn(a + b, id);
  }

  lemma AddAllLast(s: Shelf, front: seq<Evidence>, item: Evidence)
    ensures s.AddAll(front + [item]) == s.AddAll(front).Add(item)
  {
    assert (front + [item])[..|front|] == front;
  }

  lemma AddedIs(s: Shelf, items: seq<Evidence>)
    requires s.Valid()
    ensures var a := s.AddAll(items); a.Valid() && a.number == s.number && a.evidence == s.evidence + Added(s, items)
  {
    AddAllKeepsValid(s, items);
    AddAllSplits(s, items);
  }

  lemma AddedLast(s: Shelf, front: seq<Evidence>, item: Evidence)
    requires s.Valid()
    ensures var a := s.AddAll(front);
      && a.Valid() && a.Add(item).Valid() && a.number == s.number && a.keys <= a.Add(item).keys && a.evidence == s.evidence + Added(s, front)
      && s.AddAll(front + [item]) == a.Add(item) && Added(s, front + [item]) == a.Add(item).evidence[|s.evidence|..]
  {
    AddAllLast(s, front, item);
    AddedIs(s, front);
    AddKeepsValid(s.AddAll(front), item);
  }

  /** Putting the items on a shelf that knows their identities adds what is missing of what was added before. */
  lemma {:induction false} AddAgain(s: Shelf, items: seq<Evidence>, t: Shelf)
    requires Resumes(s, items, t)
    ensures t.AddAll(items) == t.(evidence := t.evidence + Missing(t.evidence, Added(s, items)))
    decreases |items|
  {
    if items == [] {
      assert Added(s, items) == [] && t.evidence + [] == t.evidence;
    } else {
      var front, item := items[..|items| - 1], items[|items| - 1];
      assert items == front + [item];
      AddedLast(s, front, item);
      AddAgain(s, front, t);
      AddLast(s.AddAll(front), s.evidence, Added(s, front), t, item);
    }
  }

  function Dropped(o: Outcome, es: seq<Evidence>): seq<Evidence> {
    if es == [] then []
    else Dropped(o, es[..|es| - 1]) + if Keeps(o, es[|es| - 1]) then [] else [es[|es| - 1]]
  }

  lemma {:induction false} DroppedFrom(o: Outcome, es: seq<Evidence>)
    ensures forall e :: e in Dropped(o, es) <==> e in es && !Keeps(o, e)
  {
    if es != [] {
      DroppedFrom(o, es[..|es| - 1]);
      assert es == es[..|es| - 1] + [es[|es| - 1]];
    }
  }

  lemma {:induction false} KeptAppend(o: Outcome, a: seq<Evidence>, b: seq<Evidence>)
    ensures Kept(o, a + b) == Kept(o, a) + Kept(o, b)
    decreases |b|
  {
    if b == [] {
      assert a + b == a;
    } else {
      KeptAppend(o, a, b[..|b| - 1]);
      assert (a + b)[..|a + b| - 1] == a + b[..|b| - 1];
    }
  }

  lemma {:induction false} KeptAll(o: Outcome, es: seq<Evidence>)
    requires forall e | e in es :: Keeps(o, e)
    ensures Kept(o, es) == es && Dropped(o, es) == []
  {
    if es != [] {
      KeptAll(o, es[..|es| - 1]);
      assert es[|es| - 1] in es;
    }
  }

  lemma {:induction false} MissingIsDropped(o: Outcome, es: seq<Evidence>, news: seq<Evidence>)
    requires forall e | e in news :: HasId(es, e.id) <==> Keeps(o, e)
    ensures Missing(es, news) == Dropped(o, news)
  {
    if news != [] {
      MissingIsDropped(o, es, news[..|news| - 1]);
      assert news[|news| - 1] in news;
    }
  }

  /** Of the items added, those that the outcome itself would drop come last. */
  predicate KeptFirst(o: Outcome, es: seq<Evidence>) {
    forall i, j | 0 <= i < j < |es| && Keeps(o, es[j]) :: Keeps(o, es[i])
  }

  lemma DroppedLast(o: Outcome, front: seq<Evidence>, last: Evidence)
    requires Kept(o, front) + Dropped(o, front) == front && !Keeps(o, last)
    ensures Kept(o, front + [last]) + Dropped(o, front + [last]) == front + [last]
  {
    assert (front + [last])[..|front|] == front && Kept(o, front) + [] == Kept(o, front);
    ConcatAssociates(Kept(o, front), Dropped(o, front), [last]);
  }

  lemma {:induction false} KeptFirstStays(o: Outcome, es: seq<Evidence>)
    requires KeptFirst(o, es)
    ensures Kept(o, es) + Dropped(o, es) == es
  {
    if es != [] {
      var front, last := es[..|es| - 1], es[|es| - 1];
      FrontAndLast(es);
      if Keeps(o, last) {
        KeptAll(o, es);
        assert es + [] == es;
      } else {
        KeptFirstStays(o, front);
        DroppedLast(o, front, last);
      }
    }
  }

  lemma PartitionIsKeptFirst(o: Outcome, es: seq<Evidence>)
    requires Kept(o, es) + Dropped(o, es) == es
    ensures KeptFirst(o, es)
  {
    KeptFrom(o, es);
    DroppedFrom(o, es);
    forall k | 0 <= k < |es| ensures Keeps(o, es[k]) <==> k < |Kept(o, es)| {
      if k < |Kept(o, es)| { assert es[k] == Kept(o, es)[k] && es[k] in Kept(o, es); }
      else { assert es[k] == Dropped(o, es)[k - |Kept(o, es)|] && es[k] in Dropped(o, es); }
    }
  }

  lemma SameId(es: seq<Evidence>, e: Evidence, f: Evidence)
    requires DistinctIds(es) && e in es && f in es && e.id == f.id
    ensures e == f
  {
    var i :| 0 <= i < |es| && es[i] == e;
    var j :| 0 <= j < |es| && es[j] == f;
  }

  lemma ApartIds(es: seq<Evidence>, news: seq<Evidence>, e: Evidence, f: Evidence)
    requires DistinctIds(es + news) && e in es && f in news
    ensures e.id != f.id
  {
    var i :| 0 <= i < |es| && es[i] == e;
    var k :| 0 <= k < |news| && news[k] == f;
    assert (es + news)[i] == e && (es + news)[|es| + k] == f;
  }

  lemma DistinctBehind(es: seq<Evidence>, news: seq<Evidence>)
    requires DistinctIds(es + news)
    ensures DistinctIds(news)
  {
    forall i, j | 0 <= i < j < |news| ensures news[i].id != news[j].id {
      assert (es + news)[|es| + i] == news[i] && (es + news)[|es| + j] == news[j];
    }
  }

  /** Of the items added, those that are kept are found on the shelf again, by their ids, and no others. */
  lemma AddedIds(es: seq<Evidence>, o: Outcome, news: seq<Evidence>, e: Evidence)
    requires DistinctIds(es + news) && e in news
    ensures HasId(es + Kept(o, news), e.id) <==> Keeps(o, e)
  {
    KeptFrom(o, news);
    DistinctBehind(es, news);
    HasIdIn(es + Kept(o, news), e.id);
    if HasId(es + Kept(o, news), e.id) {
      var f :| f in es + Kept(o, news) && f.id == e.id;
      if f in es { ApartIds(es, news, f, e); }
      SameId(news, e, f);
    }
  }

  lemma KeptAgain(s: Shelf, o: Outcome)
    requires s.Valid() && forall e | e in s.evidence :: Keeps(o, e)
    ensures Kept(o, s.AddAll(o.evidence).evidence) == s.evidence + Kept(o, Added(s, o.evidence))
    ensures DistinctIds(s.evidence + Added(s, o.evidence))
  {
    AddAllSplits(s, o.evidence);
    KeptAppend(o, s.evidence, Added(s, o.evidence));
    KeptAll(o, s.evidence);
  }

  lemma MissingAgain(es: seq<Evidence>, o: Outcome, added: seq<Evidence>)
    requires DistinctIds(es + added)
    ensures Missing(es + Kept(o, added), added) == Dropped(o, added)
  {
    forall e | e in added ensures HasId(es + Kept(o, added), e.id) <==> Keeps(o, e) { AddedIds(es, o, added, e); }
    MissingIsDropped(o, es + Kept(o, added), added);
  }

  /** Dropping and adding again: the items that the outcome itself drops move behind the others. */
  lemma ShelfTwice(s: Shelf, o: Outcome)
    requires s.Valid() && forall e | e in s.evidence :: Keeps(o, e)
    ensures var once := s.AddAll(o.evidence); var added := Added(s, o.evidence);
      once.(evidence := s.evidence + Kept(o, added)).AddAll(o.evidence) == once.(evidence := s.evidence + Kept(o, added) + Dropped(o, added))
  {
    var added := Added(s, o.evidence);
    var t := s.AddAll(o.evidence).(evidence := s.evidence + Kept(o, added));
    AddAllKeepsValid(s, o.evidence);
    forall e | e in s.evidence ensures HasId(t.evidence, e.id) { HasIdIn(t.evidence, e.id); }
    AddAgain(s, o.evidence, t);
    KeptAgain(s, o);
    MissingAgain(s.evidence, o, added);
  }

  /** What merging an outcome adds behind the evidence that it lets stay. */
  function Fresh(l: Ledger, o: Outcome): seq<Evidence>
    requires Valid(l)
  {
    ClearedIsValid(l, o);
    Added(Cleared(l, o), o.evidence)
  }

  /** The place of an outcome's meeting after it has been merged. */
  function PlaceOf(l: Ledger, o: Outcome): nat {
    var r := Find(l.meetings, l.KeyOf(o)); if r.Some? then r.value else |l.meetings|
  }

  lemma PlaceStays(l: Ledger, o: Outcome)
    requires Valid(l)
    ensures var t := MergeOne(l, o); var i := PlaceOf(l, o);
      i < |t.meetings| && Find(t.meetings, t.KeyOf(o)) == Some(i) && t.meetings[i] == Updated(l, o) && Valid(t)
  {
    MergeOneKeepsValid(l, o);
    FindUnique(MergeOne(l, o), l.KeyOf(o), PlaceOf(l, o));
  }

  lemma FindUnique(l: Ledger, key: Key, i: nat)
    requires Valid(l) && i < |l.meetings| && l.meetings[i].key == key
    ensures Find(l.meetings, key) == Some(i)
  {
    var r := Find(l.meetings, key);
    assert r.Some? && l.meetings[r.value].key == l.meetings[i].key;
  }

  lemma ClearedKeeps(l: Ledger, o: Outcome)
    requires Valid(l)
    ensures forall e | e in Cleared(l, o).evidence :: Keeps(o, e)
  {
    var r := Find(l.meetings, l.KeyOf(o));
    if r.Some? { KeptFrom(o, l.meetings[r.value].outcome.evidence); }
  }

  /** The second merge of an outcome selects what the first has left. */
  lemma SelectedAgain(l: Ledger, o: Outcome)
    requires Valid(l)
    ensures var t := MergeOne(l, o); var m := Updated(l, o).outcome;
      forall es, n :: Selected(t, o).(evidence := es, coverage := Selected(t, o).coverage.(retained := n))
                   == m.(evidence := es, coverage := m.coverage.(retained := n))
  {
    PlaceStays(l, o);
  }

  lemma UpdatedAgain(l: Ledger, o: Outcome)
    requires Valid(l)
    ensures var m := Updated(l, o); var added := Fresh(l, o); var es := Cleared(l, o).evidence + Kept(o, added) + Dropped(o, added);
      && m.outcome.evidence == Cleared(l, o).evidence + added
      && Updated(MergeOne(l, o), o) == m.(outcome := m.outcome.(evidence := es, coverage := m.outcome.coverage.(retained := |es|)))
  {
    PlaceStays(l, o);
    ClearedIsValid(l, o);
    ClearedKeeps(l, o);
    var s := Cleared(l, o);
    AddAllSplits(s, o.evidence);
    KeptAgain(s, o);
    ShelfTwice(s, o);
    SelectedAgain(l, o);
    assert Cleared(MergeOne(l, o), o) == s.AddAll(o.evidence).(evidence := s.evidence + Kept(o, Fresh(l, o)));
  }

  lemma MergeAgainIff(l: Ledger, o: Outcome)
    requires Valid(l)
    ensures MergeOne(MergeOne(l, o), o) == MergeOne(l, o) <==> Updated(MergeOne(l, o), o) == Updated(l, o)
  {
    var t, i := MergeOne(l, o), PlaceOf(l, o);
    PlaceStays(l, o);
    assert MergeOne(t, o) == t.(meetings := t.meetings[i := Updated(t, o)]);
    assert t.meetings[i := t.meetings[i]] == t.meetings;
  }

  lemma UpdatedAgainIff(l: Ledger, o: Outcome)
    requires Valid(l)
    ensures var added := Fresh(l, o); Updated(MergeOne(l, o), o) == Updated(l, o) <==> Kept(o, added) + Dropped(o, added) == added
  {
    var added, before := Fresh(l, o), Cleared(l, o).evidence;
    UpdatedAgain(l, o);
    Cancel(before, Kept(o, added) + Dropped(o, added), added);
    Regroup(before, Kept(o, added), Dropped(o, added));
  }

  lemma Regroup(a: seq<Evidence>, b: seq<Evidence>, c: seq<Evidence>)
    ensures a + b + c == a + (b + c)
  {
  }

  predicate HasIdentity(es: seq<Evidence>, x: Evidence) { exists e :: e in es && Identity(e) == x }

  /** Piece `k` of a list is new behind `es`: it is the first of its identity, and nothing in `es` has that. */
  predicate IsNew(es: seq<Evidence>, items: seq<Evidence>, k: nat)
    requires k < |items|
  {
    !HasIdentity(es, Identity(items[k])) && !HasIdentity(items[..k], Identity(items[k]))
  }

  /** The new pieces, in order. */
  function News(es: seq<Evidence>, items: seq<Evidence>): seq<Evidence> {
    if items == [] then []
    else News(es, items[..|items| - 1]) + if IsNew(es, items, |items| - 1) then [items[|items| - 1]] else []
  }

  lemma {:induction false} NewsHave(es: seq<Evidence>, items: seq<Evidence>, x: Evidence)
    requires !HasIdentity(es, x)
    ensures HasIdentity(News(es, items), x) <==> HasIdentity(items, x)
  {
    if items != [] {
      NewsHave(es, items[..|items| - 1], x);
      FrontAndLast(items);
      FrontAndLast(News(es, items[..|items| - 1]) + [items[|items| - 1]]);
    }
  }

  /** The pieces of two lists have the same identities, one by one. */
  predicate SameIdentities(a: seq<Evidence>, b: seq<Evidence>) { |a| == |b| && forall k | 0 <= k < |a| :: Identity(a[k]) == Identity(b[k]) }

  lemma SameHave(a: seq<Evidence>, b: seq<Evidence>, x: Evidence)
    requires SameIdentities(a, b)
    ensures HasIdentity(a, x) <==> HasIdentity(b, x)
  {
    if HasIdentity(a, x) {
      var k :| 0 <= k < |a| && Identity(a[k]) == x;
      assert b[k] in b;
    }
    if HasIdentity(b, x) {
      var k :| 0 <= k < |b| && Identity(b[k]) == x;
      assert a[k] in a;
    }
  }

  /** An alias is on a shelf exactly when its identity is. */
  lemma AliasIff(s: Shelf, item: Evidence)
    requires s.Valid()
    ensures HasId(s.evidence, s.AliasOf(item)) <==> HasIdentity(s.evidence, Identity(item))
  {
    HasIdIn(s.evidence, s.AliasOf(item));
    forall e | e in s.evidence ensures e.id == s.AliasOf(item) <==> Identity(e) == Identity(item) {
      assert Identity(e) in s.keys && e.id == s.AliasOf(e);
    }
  }

  lemma HasEither(a: seq<Evidence>, b: seq<Evidence>, x: Evidence)
    ensures HasIdentity(a + b, x) <==> HasIdentity(a, x) || HasIdentity(b, x)
  {
  }

  /** What adding one more item puts behind the evidence. */
  lemma AddedIfNew(s: Shelf, front: seq<Evidence>, item: Evidence)
    requires s.Valid() && SameIdentities(Added(s, front), News(s.evidence, front))
    ensures var a := s.AddAll(front);
      HasId(a.evidence, a.AliasOf(item)) <==> HasIdentity(s.evidence, Identity(item)) || HasIdentity(front, Identity(item))
  {
    var x := Identity(item);
    AddedIs(s, front);
    AliasIff(s.AddAll(front), item);
    HasEither(s.evidence, Added(s, front), x);
    SameHave(Added(s, front), News(s.evidence, front), x);
    if !HasIdentity(s.evidence, x) { NewsHave(s.evidence, front, x); }
  }

  /** What a merge adds are the new pieces under their aliases. */
  lemma {:induction false} AddedAreNews(s: Shelf, items: seq<Evidence>)
    requires s.Valid()
    ensures SameIdentities(Added(s, items), News(s.evidence, items))
    decreases |items|
  {
    if items == [] {
      assert Added(s, items) == [];
    } else {
      var front, item := items[..|items| - 1], items[|items| - 1];
      assert items == front + [item];
      AddedAreNews(s, front);
      AddedIfNew(s, front, item);
      AddedLast(s, front, item);
      AddBehind(s.AddAll(front), s.evidence, Added(s, front), item);
    }
  }

  /** Of the new pieces, none that the outcome itself drops comes before one that it keeps. */
  predicate DropsLast(o: Outcome, es: seq<Evidence>, items: seq<Evidence>) {
    forall j, k | 0 <= j < k < |items| && IsNew(es, items, j) && IsNew(es, items, k) && Keeps(o, items[k]) :: Keeps(o, items[j])
  }

  lemma NewInFront(es: seq<Evidence>, items: seq<Evidence>, k: nat)
    requires k < |items| - 1
    ensures IsNew(es, items, k) == IsNew(es, items[..|items| - 1], k)
  {
    assert items[..|items| - 1][..k] == items[..k];
  }

  lemma NewsLast(es: seq<Evidence>, items: seq<Evidence>)
    requires items != []
    ensures var n := |items| - 1; News(es, items) == if IsNew(es, items, n) then News(es, items[..n]) + [items[n]] else News(es, items[..n])
  {
  }

  predicate KeepsAll(o: Outcome, es: seq<Evidence>) { forall e | e in es :: Keeps(o, e) }

  predicate KeepsNew(o: Outcome, es: seq<Evidence>, items: seq<Evidence>) { forall k | 0 <= k < |items| && IsNew(es, items, k) :: Keeps(o, items[k]) }

  lemma KeepsNewLast(o: Outcome, es: seq<Evidence>, items: seq<Evidence>)
    requires items != []
    ensures var n := |items| - 1; KeepsNew(o, es, items) <==> KeepsNew(o, es, items[..n]) && (IsNew(es, items, n) ==> Keeps(o, items[n]))
  {
    var front, n := items[..|items| - 1], |items| - 1;
    forall k | 0 <= k < n ensures IsNew(es, items, k) == IsNew(es, front, k) && items[k] == front[k] { NewInFront(es, items, k); }
  }

  lemma {:induction false} NewsKept(o: Outcome, es: seq<Evidence>, items: seq<Evidence>)
    ensures KeepsAll(o, News(es, items)) <==> KeepsNew(o, es, items)
  {
    if items != [] {
      var n := |items| - 1;
      NewsKept(o, es, items[..n]);
      NewsLast(es, items);
      KeepsNewLast(o, es, items);
      if IsNew(es, items, n) { FrontAndLast(News(es, items)); }
    }
  }

  lemma KeptFirstLast(o: Outcome, es: seq<Evidence>, e: Evidence)
    ensures KeptFirst(o, es + [e]) <==> KeptFirst(o, es) && (Keeps(o, e) ==> KeepsAll(o, es))
  {
    var all := es + [e];
    assert forall k | 0 <= k < |es| :: all[k] == es[k];
    assert all[|es|] == e;
  }

  lemma DropsLastFront(o: Outcome, es: seq<Evidence>, items: seq<Evidence>)
    requires items != [] && DropsLast(o, es, items)
    ensures DropsLast(o, es, items[..|items| - 1])
    ensures var n := |items| - 1; IsNew(es, items, n) && Keeps(o, items[n]) ==> KeepsAll(o, News(es, items[..n]))
  {
    var front, n := items[..|items| - 1], |items| - 1;
    forall j, k | 0 <= j < k < n && IsNew(es, front, j) && IsNew(es, front, k) && Keeps(o, front[k]) ensures Keeps(o, front[j]) {
      NewInFront(es, items, j);
      NewInFront(es, items, k);
    }
    if IsNew(es, items, n) && Keeps(o, items[n]) {
      forall k | 0 <= k < n && IsNew(es, front, k) ensures Keeps(o, front[k]) { NewInFront(es, items, k); }
      NewsKept(o, es, front);
    }
  }

  lemma DropsLastWhole(o: Outcome, es: seq<Evidence>, items: seq<Evidence>)
    requires items != [] && DropsLast(o, es, items[..|items| - 1])
    requires var n := |items| - 1; IsNew(es, items, n) && Keeps(o, items[n]) ==> KeepsAll(o, News(es, items[..n]))
    ensures DropsLast(o, es, items)
  {
    var front, n := items[..|items| - 1], |items| - 1;
    NewsKept(o, es, front);
    forall j, k | 0 <= j < k < |items| && IsNew(es, items, j) && IsNew(es, items, k) && Keeps(o, items[k]) ensures Keeps(o, items[j]) {
      NewInFront(es, items, j);
      assert items[j] == front[j];
      if k < n {
        NewInFront(es, items, k);
        assert items[k] == front[k];
      }
    }
  }

  lemma {:induction false} NewsKeptFirst(o: Outcome, es: seq<Evidence>, items: seq<Evidence>)
    ensures KeptFirst(o, News(es, items)) <==> DropsLast(o, es, items)
  {
    if items != [] {
      var n := |items| - 1;
      NewsKeptFirst(o, es, items[..n]);
      NewsLast(es, items);
      KeptFirstLast(o, News(es, items[..n]), items[n]);
      if DropsLast(o, es, items) {
        DropsLastFront(o, es, items);
      } else if KeptFirst(o, News(es, items)) {
        DropsLastWhole(o, es, items);
      }
    }
  }

  lemma SameKeptFirst(o: Outcome, a: seq<Evidence>, b: seq<Evidence>)
    requires SameIdentities(a, b)
    ensures KeptFirst(o, a) <==> KeptFirst(o, b)
  {
    forall k | 0 <= k < |a| ensures Keeps(o, a[k]) == Keeps(o, b[k]) {
      assert a[k] == b[k].(id := a[k].id);
    }
  }

  lemma MergeTwiceByAdded(l: Ledger, o: Outcome)
    requires Valid(l)
    ensures MergeOne(MergeOne(l, o), o) == MergeOne(l, o) <==> KeptFirst(o, Fresh(l, o))
  {
    MergeAgainIff(l, o);
    UpdatedAgainIff(l, o);
    var added := Fresh(l, o);
    if KeptFirst(o, added) { KeptFirstStays(o, added); }
    if Kept(o, added) + Dropped(o, added) == added { PartitionIsKeptFirst(o, added); }
  }

  /**
    Merging an outcome a second time changes nothing exactly when, of its pieces that are new to what the
    ledger retains of the meeting under this outcome, none that the outcome's own state drops comes before
    one that it keeps.
   */
  lemma MergeTwiceIff(l: Ledger, o: Outcome)
    requires Valid(l)
    ensures MergeOne(MergeOne(l, o), o) == MergeOne(l, o) <==> DropsLast(o, Cleared(l, o).evidence, o.evidence)
  {
    MergeTwiceByAdded(l, o);
    ClearedIsValid(l, o);
    var s := Cleared(l, o);
    AddedAreNews(s, o.evidence);
    SameKeptFirst(o, Fresh(l, o), News(s.evidence, o.evidence));
    NewsKeptFirst(o, s.evidence, o.evidence);
  }

  lemma Cancel(a: seq<Evidence>, b: seq<Evidence>, c: seq<Evidence>)
    ensures a + b == a + c <==> b == c
  {
    if a + b == a + c {
      assert b == (a + b)[|a|..] && c == (a + c)[|a|..];
    }
  }

  /** In particular an outcome whose meeting and body were read, or not asked for, is merged once however often it is. */
  lemma GoodOutcomeMergesOnce(l: Ledger, o: Outcome)
    requires Valid(l) && (o.state.Read? || o.state.MetadataOnly?) && (o.body.state.NotRequested? || o.body.state.Present?)
    ensures MergeOne(MergeOne(l, o), o) == MergeOne(l, o)
  {
    MergeTwiceIff(l, o);
  }

  /** A second merge never loses or doubles anything: at most the order of a meeting's evidence changes. */
  lemma MergeTwiceReorders(l: Ledger, o: Outcome)
    requires Valid(l)
    ensures multiset(Updated(MergeOne(l, o), o).outcome.evidence) == multiset(Updated(l, o).outcome.evidence)
    ensures Updated(MergeOne(l, o), o).evidenceKeys == Updated(l, o).evidenceKeys
  {
    UpdatedAgain(l, o);
    PartitionKeeps(o, Fresh(l, o));
    Regroup(Cleared(l, o).evidence, Kept(o, Fresh(l, o)), Dropped(o, Fresh(l, o)));
  }

  lemma {:induction false} PartitionKeeps(o: Outcome, es: seq<Evidence>)
    ensures multiset(Kept(o, es)) + multiset(Dropped(o, es)) == multiset(es)
  {
    if es != [] {
      var front, last := es[..|es| - 1], es[|es| - 1];
      PartitionKeeps(o, front);
      FrontAndLast(es);
      if Keeps(o, last) {
        MultisetSnoc(Kept(o, front), last);
      } else {
        MultisetSnoc(Dropped(o, front), last);
      }
    }
  }

  /** A failed outcome that brings a summary before its metadata: the second merge swaps the two. */
  lemma MergeTwiceCanReorder(summary: Evidence, metadata: Evidence, o: Outcome)
    requires summary.kind.Summary? && metadata.kind.MetadataItem? && o.state.Unavailable? && o.evidence == [summary, metadata]
    ensures var l := Ledger("access", []); Valid(l) && MergeOne(MergeOne(l, o), o) != MergeOne(l, o)
  {
    var l := Ledger("access", []);
    MergeTwiceIff(l, o);
    assert Cleared(l, o).evidence == [] && o.evidence[..1] == [summary];
    assert IsNew([], o.evidence, 0) && IsNew([], o.evidence, 1) && !Keeps(o, summary) && Keeps(o, metadata);
  }

  /** A later metadata outcome leaves the state, the body and the coverage of a meeting that was read as they are. */
  lemma MetadataNeverDowngrades(l: Ledger, o: Outcome, i: nat)
    requires Valid(l) && i < |l.meetings| && l.KeyOf(o) == l.meetings[i].key && o.state.MetadataOnly? && !l.meetings[i].outcome.state.MetadataOnly?
    ensures var m, t := l.meetings[i].outcome, MergeOne(l, o).meetings[i].outcome;
      && t == m.(evidence := t.evidence, coverage := m.coverage.(retained := |t.evidence|))
      && (o.body.state.NotRequested? || o.body.state.Present? ==> m.evidence <= t.evidence)
  {
    assert Find(l.meetings, l.KeyOf(o)) == Some(i);
    ClearedIsValid(l, o);
    AddAllKeepsValid(Cleared(l, o), o.evidence);
    if o.body.state.NotRequested? || o.body.state.Present? { KeptAll(o, l.meetings[i].outcome.evidence); }
  }

  // ── Which outcome a meeting reports ────────────────────────────────────────

  /** The meeting `m` reports the state, body, search and coverage of `o`, with its own evidence and the count of it. */
  predicate Reports(m: Meeting, o: Outcome) {
    m.outcome == o.(evidence := m.outcome.evidence, coverage := o.coverage.(retained := |m.outcome.evidence|))
  }

  /** Once `o` has been merged its meeting reports `o`, except that metadata does not take over from an outcome that says more. */
  lemma MergeTakesOver(l: Ledger, o: Outcome)
    requires Valid(l)
    ensures var key := l.KeyOf(o); var prior, r := Find(l.meetings, key), Find(MergeOne(l, o).meetings, key);
      && r.Some?
      && (Reports(MergeOne(l, o).meetings[r.value], o) || prior.Some?)
      && (!o.state.MetadataOnly? ==> Reports(MergeOne(l, o).meetings[r.value], o))
      && (prior.Some? ==>
            && (l.meetings[prior.value].outcome.state.MetadataOnly? ==> Reports(MergeOne(l, o).meetings[r.value], o))
            && (o.state.MetadataOnly? && !l.meetings[prior.value].outcome.state.MetadataOnly? ==>
                  Reports(MergeOne(l, o).meetings[r.value], l.meetings[prior.value].outcome)))
  {
    PlaceStays(l, o);
  }

  /** Merging leaves every other meeting where it is. */
  lemma MergeOneLooks(l: Ledger, o: Outcome)
    ensures var t := MergeOne(l, o);
      && |l.meetings| <= |t.meetings| <= |l.meetings| + 1
      && (forall i | 0 <= i < |l.meetings| && l.meetings[i].key != l.KeyOf(o) :: t.meetings[i] == l.meetings[i])
      && (forall i | 0 <= i < |l.meetings| :: t.meetings[i].key == l.meetings[i].key)
      && (forall i | |l.meetings| <= i < |t.meetings| :: t.meetings[i].key == l.KeyOf(o))
  {
  }

  lemma FindAgain(a: seq<Meeting>, b: seq<Meeting>, key: Key)
    requires |a| <= |b| && forall i | 0 <= i < |a| :: b[i].key == a[i].key
    requires forall i | |a| <= i < |b| :: b[i].key != key
    requires forall i, j | 0 <= i < j < |a| :: a[i].key != a[j].key
    ensures Find(b, key) == Find(a, key)
  {
  }

  lemma OthersStay(l: Ledger, o: Outcome, key: Key)
    requires Valid(l) && key != l.KeyOf(o)
    ensures Find(MergeOne(l, o).meetings, key) == Find(l.meetings, key)
    ensures Find(l.meetings, key).Some? ==> MergeOne(l, o).meetings[Find(l.meetings, key).value] == l.meetings[Find(l.meetings, key).value]
  {
    MergeOneLooks(l, o);
    FindAgain(l.meetings, MergeOne(l, o).meetings, key);
  }

  /** The meeting `key` of the ledger reports `o`. */
  predicate Reported(l: Ledger, key: Key, o: Outcome) {
    var r := Find(l.meetings, key);
    r.Some? && Reports(l.meetings[r.value], o)
  }

  lemma MergeFront(l: Ledger, os: seq<Outcome>)
    requires Valid(l) && os != []
    ensures var front := Merge(l, os[..|os| - 1]);
      Merge(l, os) == MergeOne(front, os[|os| - 1]) && Valid(front) && front.KeyOf(os[|os| - 1]) == l.KeyOf(os[|os| - 1])
  {
    MergeKeepsValid(l, os[..|os| - 1]);
  }

  /** An outcome that is reported stays reported under another meeting's outcome, and, unless it is metadata itself, under metadata. */
  lemma ReportedOnMerge(l: Ledger, o: Outcome, key: Key, x: Outcome)
    requires Valid(l) && Reported(l, key, x)
    requires l.KeyOf(o) != key || (o.state.MetadataOnly? && !x.state.MetadataOnly?)
    ensures Reported(MergeOne(l, o), key, x)
  {
    if l.KeyOf(o) == key {
      MergeTakesOver(l, o);
    } else {
      OthersStay(l, o, key);
    }
  }

  lemma {:induction false} ReportedOnMerges(l: Ledger, os: seq<Outcome>, key: Key, x: Outcome)
    requires Valid(l) && Reported(l, key, x)
    requires forall j | 0 <= j < |os| && l.KeyOf(os[j]) == key :: os[j].state.MetadataOnly? && !x.state.MetadataOnly?
    ensures Reported(Merge(l, os), key, x)
    decreases |os|
  {
    if os != [] {
      ReportedOnMerges(l, os[..|os| - 1], key, x);
      MergeFront(l, os);
      ReportedOnMerge(Merge(l, os[..|os| - 1]), os[|os| - 1], key, x);
    }
  }

  lemma {:induction false} MergeConcat(l: Ledger, a: seq<Outcome>, b: seq<Outcome>)
    ensures Merge(l, a + b) == Merge(Merge(l, a), b)
    decreases |b|
  {
    if b == [] {
      assert a + b == a;
    } else {
      MergeConcat(l, a, b[..|b| - 1]);
      FrontConcat(a, b);
    }
  }

  /** Merging up to `k`, then `k` itself, then the rest. */
  lemma MergeAround(l: Ledger, os: seq<Outcome>, k: nat)
    requires Valid(l) && k < |os|
    ensures var before := Merge(l, os[..k]);
      && Merge(l, os) == Merge(MergeOne(before, os[k]), os[k + 1..])
      && Valid(before) && Valid(MergeOne(before, os[k])) && before.access == l.access == MergeOne(before, os[k]).access
  {
    MergeKeepsValid(l, os[..k]);
    MergeOneKeepsValid(Merge(l, os[..k]), os[k]);
    MergeSplits(l, os, k);
  }

  lemma MergeSplits(l: Ledger, os: seq<Outcome>, k: nat)
    requires k < |os|
    ensures Merge(l, os) == Merge(MergeOne(Merge(l, os[..k]), os[k]), os[k + 1..])
  {
    assert os[..k + 1][..k] == os[..k] && os[..k + 1] + os[k + 1..] == os;
    MergeConcat(l, os[..k + 1], os[k + 1..]);
  }

  /** What is reported when outcome `k` has been merged is reported at the end, if the rest cannot take over. */
  lemma ReportedAround(l: Ledger, os: seq<Outcome>, k: nat, key: Key, x: Outcome)
    requires Valid(l) && k < |os| && Reported(MergeOne(Merge(l, os[..k]), os[k]), key, x)
    requires forall j | k < j < |os| && l.KeyOf(os[j]) == key :: os[j].state.MetadataOnly? && !x.state.MetadataOnly?
    ensures Reported(Merge(l, os), key, x)
  {
    MergeAround(l, os, k);
    ReportedOnMerges(MergeOne(Merge(l, os[..k]), os[k]), os[k + 1..], key, x);
  }

  /**
    What a meeting reports after any merges. The last of its outcomes that is more than metadata
    decides, whatever came before it and whatever metadata came after.
   */
  lemma LastOutcomeDecides(l: Ledger, os: seq<Outcome>, k: nat)
    requires Valid(l) && k < |os| && !os[k].state.MetadataOnly?
    requires forall j | k < j < |os| && l.KeyOf(os[j]) == l.KeyOf(os[k]) :: os[j].state.MetadataOnly?
    ensures Reported(Merge(l, os), l.KeyOf(os[k]), os[k])
  {
    MergeAround(l, os, k);
    MergeTakesOver(Merge(l, os[..k]), os[k]);
    ReportedAround(l, os, k, l.KeyOf(os[k]), os[k]);
  }

  /** If there is none, an outcome the ledger already had that is more than metadata stays; */
  lemma PriorOutcomeStays(l: Ledger, os: seq<Outcome>, i: nat)
    requires Valid(l) && i < |l.meetings| && !l.meetings[i].outcome.state.MetadataOnly?
    requires forall j | 0 <= j < |os| && l.KeyOf(os[j]) == l.meetings[i].key :: os[j].state.MetadataOnly?
    ensures Reported(Merge(l, os), l.meetings[i].key, l.meetings[i].outcome)
  {
    FindUnique(l, l.meetings[i].key, i);
    ReportedOnMerges(l, os, l.meetings[i].key, l.meetings[i].outcome);
  }

  lemma {:induction false} OnlyMetadata(l: Ledger, os: seq<Outcome>, key: Key)
    requires Valid(l)
    requires var r := Find(l.meetings, key); r.Some? ==> l.meetings[r.value].outcome.state.MetadataOnly?
    requires forall j | 0 <= j < |os| && l.KeyOf(os[j]) == key :: os[j].state.MetadataOnly?
    ensures var t := Merge(l, os); var r := Find(t.meetings, key); r.Some? ==> t.meetings[r.value].outcome.state.MetadataOnly?
    decreases |os|
  {
    if os != [] {
      OnlyMetadata(l, os[..|os| - 1], key);
      MergeFront(l, os);
      var front, o := Merge(l, os[..|os| - 1]), os[|os| - 1];
      if front.KeyOf(o) == key {
        MergeTakesOver(front, o);
      } else {
        OthersStay(front, o, key);
      }
    }
  }

  /** ... and where there was never more than metadata, the last metadata is reported. */
  lemma LastMetadataDecides(l: Ledger, os: seq<Outcome>, k: nat)
    requires Valid(l) && k < |os|
    requires var r := Find(l.meetings, l.KeyOf(os[k])); r.Some? ==> l.meetings[r.value].outcome.state.MetadataOnly?
    requires forall j | 0 <= j < |os| && l.KeyOf(os[j]) == l.KeyOf(os[k]) :: os[j].state.MetadataOnly?
    requires forall j | k < j < |os| :: l.KeyOf(os[j]) != l.KeyOf(os[k])
    ensures Reported(Merge(l, os), l.KeyOf(os[k]), os[k])
  {
    MergeAround(l, os, k);
    OnlyMetadata(l, os[..k], l.KeyOf(os[k]));
    MergeTakesOver(Merge(l, os[..k]), os[k]);
    ReportedAround(l, os, k, l.KeyOf(os[k]), os[k]);
  }

  /** A meeting that no outcome is about is left as it is, evidence and all. */
  lemma {:induction false} UntouchedStays(l: Ledger, os: seq<Outcome>, i: nat)
    requires Valid(l) && i < |l.meetings| && forall j | 0 <= j < |os| :: l.KeyOf(os[j]) != l.meetings[i].key
    ensures i < |Merge(l, os).meetings| && Merge(l, os).meetings[i] == l.meetings[i]
    decreases |os|
  {
    if os != [] {
      UntouchedStays(l, os[..|os| - 1], i);
      MergeFront(l, os);
    }
  }

  // ── Which evidence a meeting has ───────────────────────────────────────────

  lemma {:induction false} AddAllHas(s: Shelf, items: seq<Evidence>, x: Evidence)
    requires s.Valid()
    ensures HasIdentity(s.AddAll(items).evidence, x) <==> HasIdentity(s.evidence, x) || HasIdentity(items, x)
    decreases |items|
  {
    if items != [] {
      var front, last := items[..|items| - 1], items[|items| - 1];
      AddAllHas(s, front, x);
      AddAllKeepsValid(s, front);
      AddHas(s.AddAll(front), last, x);
      FrontAndLast(items);
      HasEither(front, [last], x);
    }
  }

  lemma AddHas(s: Shelf, item: Evidence, x: Evidence)
    requires s.Valid()
    ensures HasIdentity(s.Add(item).evidence, x) <==> HasIdentity(s.evidence, x) || Identity(item) == x
  {
    AliasIff(s, item);
    NewNumber(s, item);
    var added := [item.(id := s.AliasOf(item))];
    HasEither(s.evidence, added, x);
    assert HasIdentity(added, x) <==> Identity(item) == x by { assert added[0] in added; }
  }

  /**
    After an outcome has been merged, its meeting has exactly the pieces that the outcome brings and
    those it had before, except that a failed outcome takes away all but metadata, and a body that
    could not be read takes away what was quoted from it.
   */
  lemma EvidenceAfter(l: Ledger, o: Outcome, i: nat, x: Evidence)
    requires Valid(l) && i < |l.meetings| && l.KeyOf(o) == l.meetings[i].key
    ensures HasIdentity(MergeOne(l, o).meetings[i].outcome.evidence, x) <==>
              || HasIdentity(o.evidence, x)
              || exists e :: e in l.meetings[i].outcome.evidence && Identity(e) == x
                   && (o.state.Read? || o.state.MetadataOnly? || e.kind.MetadataItem?)
                   && (o.body.state.NotRequested? || o.body.state.Present? || !(o.state.Read? || o.state.MetadataOnly?)
                       || !(e.Excerpt() || (e.kind.Notes? && e.offsets.Some?)))
  {
    FindUnique(l, l.meetings[i].key, i);
    ClearedIsValid(l, o);
    AddAllHas(Cleared(l, o), o.evidence, x);
    KeptFrom(o, l.meetings[i].outcome.evidence);
  }

  function Keys(l: Ledger): set<Key> { set i | 0 <= i < |l.meetings| :: l.meetings[i].key }

  function KeysOf(l: Ledger, os: seq<Outcome>): set<Key> { set i | 0 <= i < |os| :: l.KeyOf(os[i]) }

  lemma {:induction false} CountKeys(ms: seq<Meeting>)
    requires forall i, j | 0 <= i < j < |ms| :: ms[i].key != ms[j].key
    ensures |(set i | 0 <= i < |ms| :: ms[i].key)| == |ms|
  {
    var all := set i | 0 <= i < |ms| :: ms[i].key;
    if ms == [] {
      assert all == {};
    } else {
      var front, last := ms[..|ms| - 1], ms[|ms| - 1];
      CountKeys(front);
      assert all == (set i | 0 <= i < |front| :: front[i].key) + {last.key};
    }
  }

  lemma KeysOfLast(l: Ledger, os: seq<Outcome>)
    requires os != []
    ensures KeysOf(l, os) == KeysOf(l, os[..|os| - 1]) + {l.KeyOf(os[|os| - 1])}
  {
    assert forall k | 0 <= k < |os| - 1 :: os[..|os| - 1][k] == os[k];
  }

  lemma {:induction false} MergeKeys(l: Ledger, os: seq<Outcome>)
    requires Valid(l)
    ensures Keys(Merge(l, os)) == Keys(l) + KeysOf(l, os)
    decreases |os|
  {
    if os == [] {
      assert KeysOf(l, os) == {};
    } else {
      var t, last := Merge(l, os[..|os| - 1]), os[|os| - 1];
      MergeKeys(l, os[..|os| - 1]);
      assert t.KeyOf(last) == l.KeyOf(last) by { MergeKeepsValid(l, os[..|os| - 1]); }
      MergeOneKeys(t, last);
      KeysOfLast(l, os);
    }
  }

  lemma MergeOneKeys(l: Ledger, o: Outcome)
    ensures Keys(MergeOne(l, o)) == Keys(l) + {l.KeyOf(o)}
  {
    var t := MergeOne(l, o);
    var r := Find(l.meetings, l.KeyOf(o));
    if r.Some? {
      assert forall i | 0 <= i < |l.meetings| :: t.meetings[i].key == l.meetings[i].key;
      assert l.KeyOf(o) in Keys(l);
    } else {
      assert t.meetings[|l.meetings|].key == l.KeyOf(o);
      assert forall i | 0 <= i < |l.meetings| :: t.meetings[i] == l.meetings[i];
    }
  }

  /** A ledger has one meeting for each identity it has been given. */
  lemma MergeCounts(l: Ledger, os: seq<Outcome>)
    requires Valid(l)
    ensures |Merge(l, os).meetings| == |Keys(l) + KeysOf(l, os)|
  {
    MergeKeepsValid(l, os);
    MergeKeys(l, os);
    CountKeys(Merge(l, os).meetings);
  }

  const MAX_MEETINGS := 12
  const MAX_RESULTS := 16

  /** createRunEvidence, and what has been admitted since; a receipt stands for a discovery's query and counts. */
  datatype RunEvidence = RunEvidence(ledger: Ledger, discoveries: seq<string>, admittedResults: nat)

  datatype ToolResult = ToolResult(toolName: string, soundArguments: bool, outcomes: seq<Outcome>, receipt: Option<string>)

  datatype Admission = Admitted(run: RunEvidence) | ContractMismatch | ResultSizeLimit

  function Admit(run: RunEvidence, result: ToolResult): Admission {
    if !Accepted(result.outcomes) || result.toolName == "" || !result.soundArguments then ContractMismatch
    else if run.admittedResults >= MAX_RESULTS then ResultSizeLimit
    else if |Keys(run.ledger) + KeysOf(run.ledger, result.outcomes)| > MAX_MEETINGS then ResultSizeLimit
    else Admitted(RunEvidence(Merge(run.ledger, result.outcomes),
                              run.discoveries + if result.receipt.Some? then [result.receipt.value] else [],
                              run.admittedResults + 1))
  }

  /** A run after some results, each admitted or refused as a whole. */
  function After(access: string, results: seq<ToolResult>): RunEvidence {
    if results == [] then RunEvidence(Ledger(access, []), [], 0)
    else
      var run := After(access, results[..|results| - 1]);
      match Admit(run, results[|results| - 1])
      case Admitted(next) => next
      case _ => run
  }

  /** Over any results, a run keeps at most 12 meetings and 16 results, and its ledger stays valid. */
  lemma {:induction false} AdmissionBounds(access: string, results: seq<ToolResult>)
    ensures var run := After(access, results);
      && Valid(run.ledger) && MetadataOrdered(run.ledger) && run.ledger.access == access
      && |run.ledger.meetings| <= MAX_MEETINGS && run.admittedResults <= MAX_RESULTS
  {
    if results != [] {
      var run, result := After(access, results[..|results| - 1]), results[|results| - 1];
      AdmissionBounds(access, results[..|results| - 1]);
      MergeKeepsValid(run.ledger, result.outcomes);
      MergeMetadata(run.ledger, result.outcomes);
      MergeCounts(run.ledger, result.outcomes);
    }
  }

  /** A result is admitted exactly when it is well formed, no more than 15 were before it, and the ledger then has at most 12 meetings. */
  lemma AdmittedIff(run: RunEvidence, result: ToolResult)
    requires Valid(run.ledger)
    ensures Admit(run, result).Admitted? <==>
              && Accepted(result.outcomes) && result.toolName != "" && result.soundArguments
              && run.admittedResults < MAX_RESULTS && |Merge(run.ledger, result.outcomes).meetings| <= MAX_MEETINGS
    ensures Admit(run, result).ContractMismatch? <==> !(Accepted(result.outcomes) && result.toolName != "" && result.soundArguments)
  {
    MergeCounts(run.ledger, result.outcomes);
  }

  lemma AfterLast(access: string, results: seq<ToolResult>, last: ToolResult, key: Key, x: Evidence, id: Id)
    requires Named(After(access, results).ledger, key, x, id)
    ensures Named(After(access, results + [last]).ledger, key, x, id)
  {
    AdmissionBounds(access, results);
    NamesAreForever(After(access, results).ledger, last.outcomes, key, x, id);
    assert (results + [last])[..|results|] == results;
  }

  /** A name given in a run stays given, whatever is admitted later. */
  lemma {:induction false} RunNamesAreForever(access: string, results: seq<ToolResult>, more: seq<ToolResult>, key: Key, x: Evidence, id: Id)
    requires Named(After(access, results).ledger, key, x, id)
    ensures Named(After(access, results + more).ledger, key, x, id)
    decreases |more|
  {
    if more == [] {
      assert results + more == results;
    } else {
      RunNamesAreForever(access, results, more[..|more| - 1], key, x, id);
      AfterLast(access, results + more[..|more| - 1], more[|more| - 1], key, x, id);
      assert results + more == results + more[..|more| - 1] + [more[|more| - 1]];
    }
  }

  function NumberOf(e: Evidence): nat { if e.id.Alias? then e.id.number else 0 }

  /** Metadata items stand in the order of their numbers. */
  predicate MetadataInOrder(es: seq<Evidence>) {
    forall i, j | 0 <= i < j < |es| && es[i].kind.MetadataItem? && es[j].kind.MetadataItem? :: NumberOf(es[i]) < NumberOf(es[j])
  }

  /** Metadata is never dropped: every identity of that kind that has a number is on the shelf, and they are in order. */
  ghost predicate MetadataStays(s: Shelf) {
    && MetadataInOrder(s.evidence)
    && forall x | x in s.keys && x.kind.MetadataItem? :: exists e :: e in s.evidence && Identity(e) == x
  }

  lemma {:induction false} KeptMetadata(o: Outcome, es: seq<Evidence>)
    requires MetadataInOrder(es)
    ensures MetadataInOrder(Kept(o, es))
  {
    if es != [] {
      var front := es[..|es| - 1];
      KeptMetadata(o, front);
      KeptFrom(o, front);
      forall i | 0 <= i < |Kept(o, front)| && Kept(o, front)[i].kind.MetadataItem? && es[|es| - 1].kind.MetadataItem?
        ensures NumberOf(Kept(o, front)[i]) < NumberOf(es[|es| - 1])
      {
        assert Kept(o, front)[i] in front;
      }
    }
  }

  lemma ClearedMetadata(s: Shelf, o: Outcome)
    requires MetadataStays(s)
    ensures MetadataStays(s.(evidence := Kept(o, s.evidence)))
  {
    KeptMetadata(o, s.evidence);
    KeptFrom(o, s.evidence);
    var t := s.(evidence := Kept(o, s.evidence));
    forall x | x in t.keys && x.kind.MetadataItem? ensures exists e :: e in t.evidence && Identity(e) == x {
      var e :| e in s.evidence && Identity(e) == x;
      assert e in t.evidence;
    }
  }

  /** The number of anything on the shelf is that of a known identity. */
  lemma NumbersBelow(s: Shelf, e: Evidence)
    requires s.Valid() && e in s.evidence
    ensures 1 <= NumberOf(e) <= |s.keys|
  {
    assert Identity(e) in s.keys && e.id == s.AliasOf(e);
  }

  /** Metadata that has a number is on the shelf already. */
  lemma KnownMetadata(s: Shelf, item: Evidence)
    requires s.Valid() && MetadataStays(s) && Identity(item) in s.keys && item.kind.MetadataItem?
    ensures s.Add(item) == s
  {
    assert Identity(item).kind.MetadataItem?;
    var e :| e in s.evidence && Identity(e) == Identity(item);
    AliasIff(s, item);
  }

  lemma KnownContent(s: Shelf, item: Evidence)
    requires s.Valid() && MetadataStays(s) && Identity(item) in s.keys && !item.kind.MetadataItem?
    ensures MetadataStays(s.Add(item))
  {
    var t := s.Add(item);
    forall x | x in t.keys && x.kind.MetadataItem? ensures exists e :: e in t.evidence && Identity(e) == x {
      var e :| e in s.evidence && Identity(e) == x;
      assert e in t.evidence;
    }
  }

  lemma AddMetadata(s: Shelf, item: Evidence)
    requires s.Valid() && MetadataStays(s)
    ensures MetadataStays(s.Add(item))
  {
    if Identity(item) !in s.keys {
      NewMetadata(s, item);
    } else if item.kind.MetadataItem? {
      KnownMetadata(s, item);
    } else {
      KnownContent(s, item);
    }
  }

  lemma NewIsBehind(s: Shelf, item: Evidence)
    requires s.Valid() && Identity(item) !in s.keys
    ensures s.AliasOf(item) == Alias(s.number, |s.keys| + 1) && !HasId(s.evidence, s.AliasOf(item))
    ensures s.Add(item).evidence == s.evidence + [item.(id := s.AliasOf(item))]
    ensures forall e | e in s.evidence :: NumberOf(e) <= |s.keys|
  {
    forall e | e in s.evidence ensures NumberOf(e) <= |s.keys| { NumbersBelow(s, e); }
    HasIdIn(s.evidence, s.AliasOf(item));
  }

  lemma NewInOrder(es: seq<Evidence>, e: Evidence)
    requires MetadataInOrder(es) && forall x | x in es :: NumberOf(x) < NumberOf(e)
    ensures MetadataInOrder(es + [e])
  {
  }

  lemma NewMetadata(s: Shelf, item: Evidence)
    requires s.Valid() && MetadataStays(s) && Identity(item) !in s.keys
    ensures MetadataStays(s.Add(item))
  {
    var t, news := s.Add(item), item.(id := s.AliasOf(item));
    NewIsBehind(s, item);
    NewInOrder(s.evidence, news);
    assert t.evidence[|s.evidence|] == news && Identity(news) == Identity(item);
    forall x | x in t.keys && x.kind.MetadataItem? ensures exists e :: e in t.evidence && Identity(e) == x {
      if x in s.keys {
        var e :| e in s.evidence && Identity(e) == x;
        assert e in t.evidence;
      } else {
        assert news in t.evidence && Identity(news) == x;
      }
    }
  }

  lemma {:induction false} AddAllMetadata(s: Shelf, items: seq<Evidence>)
    requires s.Valid() && MetadataStays(s)
    ensures s.AddAll(items).Valid() && MetadataStays(s.AddAll(items))
    decreases |items|
  {
    AddAllKeepsValid(s, items);
    if items != [] {
      AddAllMetadata(s, items[..|items| - 1]);
      AddMetadata(s.AddAll(items[..|items| - 1]), items[|items| - 1]);
    }
  }

  /** A ledger whose meetings' metadata items all stay, in the order of their numbers. */
  ghost predicate MetadataOrdered(l: Ledger) {
    forall i {:trigger l.meetings[i]} | 0 <= i < |l.meetings| :: MetadataStays(ShelfOf(l.meetings[i]))
  }

  lemma MergeOneMetadata(l: Ledger, o: Outcome)
    requires Valid(l) && MetadataOrdered(l)
    ensures MetadataOrdered(MergeOne(l, o))
  {
    var r := Find(l.meetings, l.KeyOf(o));
    ClearedIsValid(l, o);
    if r.Some? { ClearedMetadata(ShelfOf(l.meetings[r.value]), o); }
    AddAllMetadata(Cleared(l, o), o.evidence);
    assert ShelfOf(Updated(l, o)) == Cleared(l, o).AddAll(o.evidence);
  }

  /** Whatever is merged, metadata items are never dropped and stand in the order of their numbers. */
  lemma {:induction false} MergeMetadata(l: Ledger, os: seq<Outcome>)
    requires Valid(l) && MetadataOrdered(l)
    ensures MetadataOrdered(Merge(l, os))
    decreases |os|
  {
    if os != [] {
      MergeMetadata(l, os[..|os| - 1]);
      MergeKeepsValid(l, os[..|os| - 1]);
      MergeOneMetadata(Merge(l, os[..|os| - 1]), os[|os| - 1]);
    }
  }

  method FilterKept(o: Outcome, es: seq<Evidence>) returns (kept: seq<Evidence>)
    ensures kept == Kept(o, es)
  {
    kept := [];
    for i := 0 to |es|
      invariant kept == Kept(o, es[..i])
    {
      assert es[..i + 1][..i] == es[..i];
      if Keeps(o, es[i]) {
        kept := kept + [es[i]];
      }
    }
    assert es[..|es|] == es;
  }

  /** The inner loop: number the items, and add those that are not there yet. */
  method AddItems(number: nat, known: seq<Evidence>, before: seq<Evidence>, items: seq<Evidence>)
    returns (keys: seq<Evidence>, evidence: seq<Evidence>)
    ensures Shelf(number, keys, evidence) == Shelf(number, known, before).AddAll(items)
  {
    keys, evidence := known, before;
    for i := 0 to |items|
      invariant Shelf(number, keys, evidence) == Shelf(number, known, before).AddAll(items[..i])
    {
      assert items[..i + 1][..i] == items[..i];
      var identity := Identity(items[i]);
      var index := IndexOf(keys, identity);
      if index == |keys| {
        keys := keys + [identity];
      }
      var id := Alias(number, index + 1);
      if !HasId(evidence, id) {
        evidence := evidence + [items[i].(id := id)];
      }
    }
    assert items[..|items|] == items;
  }

  method MergeMeetingOutcomes(l: Ledger, outcomes: seq<Outcome>) returns (next: Ledger)
    ensures next == Merge(l, outcomes)
  {
    next := l;
    for i := 0 to |outcomes|
      invariant next == Merge(l, outcomes[..i])
    {
      assert outcomes[..i + 1][..i] == outcomes[..i];
      next := MergeOutcome(next, outcomes[i]);
    }
    assert outcomes[..|outcomes|] == outcomes;
  }

  method MergeOutcome(l: Ledger, o: Outcome) returns (next: Ledger)
    ensures next == MergeOne(l, o)
  {
    var key := l.KeyOf(o);
    var index := Find(l.meetings, key);
    var number, before, known, selected := |l.meetings| + 1, [], [], o;
    if index.Some? {
      var prior := l.meetings[index.value];
      number, known := prior.number, prior.evidenceKeys;
      before := FilterKept(o, prior.outcome.evidence);
      if o.state.MetadataOnly? && !prior.outcome.state.MetadataOnly? {
        selected := prior.outcome;
      }
    }
    var keys, evidence := AddItems(number, known, before, o.evidence);
    var updated := Meeting(number, key, keys, selected.(evidence := evidence, coverage := selected.coverage.(retained := |evidence|)));
    next := l.(meetings := if index.Some? then l.meetings[index.value := updated] else l.meetings + [updated]);
  }
}
