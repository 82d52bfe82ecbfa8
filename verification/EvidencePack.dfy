/**
  packages/eliza-service/src/tasks/evidence.ts, packMeetingEvidence: fit a run's evidence into the model's
  budget. How long a package is as JSON is a parameter, `size`; it does not depend on the order of array
  elements or of properties, and a package has at least its two braces. The token budget, seven tenths of
  the context window, is a parameter too.
 */
module EvidencePacks {
  import opened Collections
  import opened MeetingEvidence
  import opened Numbers
  import opened Options
  import opened Strings
  import Ledgers = EvidenceLedgers

  const PACKAGE_CHARS := 48_000
  const SHORTEST := 80

  datatype Packed = Packed(number: nat, outcome: Outcome)

  datatype Citation = Citation(meeting: nat, evidence: Id, kind: Kind)

  /** The bracketed strings: [M1], or [M1:E2] with a speaker and a time when there are any. */
  datatype Cite = CiteMeeting(number: nat) | CiteEvidence(id: Id, speaker: Option<string>, startSecs: Option<int>)

  datatype Counts = Counts(
    admitted: nat, included: nat, read: nat, notRead: nat, attempted: nat, bodyAttempted: nat, usable: nat, failed: nat, omitted: nat)

  datatype Package = Package(
    meetings: seq<Packed>,
    citations: map<Id, Citation>,
    supplied: map<Cite, Citation>,
    receipts: seq<string>,
    coverage: Counts,
    limited: bool)

  /** What the length of a package depends on. */
  datatype Weighed = Weighed(
    meetings: seq<(Packed, multiset<Evidence>)>,
    citations: map<Id, Citation>,
    supplied: map<Cite, Citation>,
    receipts: seq<string>,
    coverage: Counts,
    limited: bool)

  function Weigh(p: Package): Weighed {
    Weighed(seq(|p.meetings|, i requires 0 <= i < |p.meetings| =>
              (p.meetings[i].(outcome := p.meetings[i].outcome.(evidence := [])), multiset(p.meetings[i].outcome.evidence))),
            p.citations, p.supplied, p.receipts, p.coverage, p.limited)
  }

  predicate Blank(t: string) { Trim(t) == "" }

  /** evidenceSupportsPurpose. */
  predicate Supports(e: Evidence, purpose: Purpose, requireBody: bool) {
    if purpose.ForMetadata? then e.kind.MetadataItem? && (e.meta.Some? || !Blank(e.text))
    else if Blank(e.text) || e.kind.MetadataItem? then false
    else if purpose.ForSpeaker? then e.kind.TranscriptExcerpt? && e.speaker.Some? && !Blank(e.speaker.value)
    else if purpose.ForActions? then e.kind.ActionItem? || e.FromBody()
    else if requireBody || purpose.ForTranscript? || purpose.ForDecisions? then e.FromBody()
    else if purpose.ForSummary? then !e.kind.ActionItem?
    else true
  }

  /** The length of the text that an original with this id has. */
  function OriginalLength(originals: seq<Evidence>, id: Id): nat {
    if originals == [] then 0
    else if originals[0].id == id then |originals[0].text|
    else OriginalLength(originals[1..], id)
  }

  function CountIf<T>(es: seq<T>, p: T -> bool): nat {
    if es == [] then 0 else CountIf(es[..|es| - 1], p) + if p(es[|es| - 1]) then 1 else 0
  }

  function Distinct(xs: seq<string>): seq<string> {
    if xs == [] then []
    else
      var front := Distinct(xs[..|xs| - 1]);
      if xs[|xs| - 1] in front then front else front + [xs[|xs| - 1]]
  }

  function Minus(a: nat, b: nat): nat { if a >= b then a - b else 0 }

  function Shortened(originals: seq<Evidence>, items: seq<Evidence>): nat {
    CountIf(items, (e: Evidence) => |e.text| < OriginalLength(originals, e.id))
  }

  function Usable(o: Outcome, items: seq<Evidence>): nat {
    CountIf(items, (e: Evidence) => Supports(e, o.coverage.purpose, o.coverage.bodyRequired))
  }

  /** An outcome's status in the package, when so many of its pieces are kept, shortened and usable. */
  function Restated(o: Outcome, kept: nat, shortened: nat, usable: nat): Outcome {
    var removed := Minus(|o.evidence|, kept);
    var limited := removed > 0 || shortened > 0;
    o.(search := o.search.(retainedMatches := if o.search.state.SearchNotRequested? then 0 else Min(o.search.retainedMatches, usable)),
       coverage := o.coverage.(
         retained := kept,
         omitted := o.coverage.omitted + removed + shortened,
         reasons := Distinct(o.coverage.reasons + if limited then ["package_budget"] else []),
         support := if usable == 0 then NoSupport else if limited && o.coverage.support.Sufficient? then Limited else o.coverage.support))
  }

  /** One meeting of the package, with the evidence that is retained for it. */
  function PackOne(m: Packed, items: seq<Evidence>): Packed {
    var o := m.outcome;
    Packed(m.number, Restated(o, |items|, Shortened(o.evidence, items), Usable(o, items)).(evidence := items))
  }

  function ExactCitation(number: nat, e: Evidence): Cite {
    if e.kind.MetadataItem? then CiteMeeting(number)
    else CiteEvidence(e.id, if e.speaker == Some("") then None else e.speaker, e.startSecs)
  }

  function CitationOf(number: nat, e: Evidence): Citation { Citation(number, e.id, e.kind) }

  /** The citations of one meeting's evidence; a later entry for the same key replaces an earlier one. */
  function Citations(number: nat, es: seq<Evidence>): map<Id, Citation> {
    if es == [] then map[] else Citations(number, es[..|es| - 1])[es[|es| - 1].id := CitationOf(number, es[|es| - 1])]
  }

  function Supplied(number: nat, es: seq<Evidence>): map<Cite, Citation> {
    if es == [] then map[]
    else Supplied(number, es[..|es| - 1])[ExactCitation(number, es[|es| - 1]) := CitationOf(number, es[|es| - 1])]
  }

  function AllCitations(ms: seq<Packed>): map<Id, Citation> {
    if ms == [] then map[] else AllCitations(ms[..|ms| - 1]) + Citations(ms[|ms| - 1].number, ms[|ms| - 1].outcome.evidence)
  }

  function AllSupplied(ms: seq<Packed>): map<Cite, Citation> {
    if ms == [] then map[] else AllSupplied(ms[..|ms| - 1]) + Supplied(ms[|ms| - 1].number, ms[|ms| - 1].outcome.evidence)
  }

  predicate Interrupted(m: Packed) { "unavailable" in m.outcome.coverage.reasons || "contract_mismatch" in m.outcome.coverage.reasons }

  predicate Failed(m: Packed) {
    var o := m.outcome;
    || o.state.MeetingNotFound? || o.state.AccessDenied? || o.state.Unavailable? || (o.state.NotRead? && Interrupted(m))
    || (!o.body.state.NotRequested? && !o.body.state.Present? && !o.body.state.Empty?)
  }

  function CountsOf(ms: seq<Packed>, admitted: nat, omitted: nat): Counts {
    Counts(admitted, |ms|,
      CountIf(ms, (m: Packed) => m.outcome.state.Read?),
      CountIf(ms, (m: Packed) => m.outcome.state.NotRead?),
      CountIf(ms, (m: Packed) => !m.outcome.state.MetadataOnly? && (!m.outcome.state.NotRead? || Interrupted(m))),
      CountIf(ms, (m: Packed) => m.outcome.coverage.bodyAttempted),
      CountIf(ms, (m: Packed) => !m.outcome.coverage.support.NoSupport?),
      CountIf(ms, (m: Packed) => Failed(m)),
      omitted)
  }

  /** What is packed, and how long it is. */
  datatype Source = Source(originals: seq<Packed>, receipts: seq<string>, omittedByDiscovery: nat, size: Weighed -> nat)
  {
    function Make(retained: seq<seq<Evidence>>): Package {
      var ms := seq(Min(|originals|, |retained|), i requires 0 <= i < Min(|originals|, |retained|) => PackOne(originals[i], retained[i]));
      Package(ms, AllCitations(ms), AllSupplied(ms), receipts, CountsOf(ms, |originals|, omittedByDiscovery), false)
    }

    function Bare(): Package {
      Package([], map[], map[], receipts, CountsOf([], |originals|, omittedByDiscovery + |originals|), true)
    }

    function Length(p: Package): nat { 2 + size(Weigh(p)) }

    function Chars(retained: seq<seq<Evidence>>): nat { Length(Make(retained)) }

    function AsPacker(): Packer { Packer(originals, (retained: seq<seq<Evidence>>) => Chars(retained)) }
  }

  /** What choosing the evidence looks at: the meetings, and how long the package is with what is retained. */
  datatype Packer = Packer(originals: seq<Packed>, chars: seq<seq<Evidence>> -> nat)

  function Tier(k: Kind): nat { if k.MetadataItem? then 0 else if k.TranscriptExcerpt? || k.BodyExcerpt? then 2 else 1 }

  /** The first `n` characters of an item's text, with its offsets cut accordingly. */
  function Cut(item: Evidence, n: nat): Evidence
    requires n <= |item.text|
  {
    item.(text := item.text[..n], truncated := true,
          offsets := if item.offsets.Some? then Some(Offsets(item.offsets.value.start, Min(item.offsets.value.end, item.offsets.value.start + n) as nat))
                     else None)
  }

  /** An item is retained whole, or cut to at least 80 characters that are not white space around the text; metadata only whole. */
  predicate Retains(original: Evidence, e: Evidence) {
    || e == original
    || (!original.kind.MetadataItem? && |e.text| < |original.text| && e.text <= original.text && e == Cut(original, |e.text|) && |Trim(e.text)| >= SHORTEST)
  }

  /** Evidence j of a meeting has had its turn when position `pos` of tier `tier` comes. */
  predicate Before(es: seq<Evidence>, j: nat, tier: nat, pos: nat)
    requires j < |es|
  {
    Tier(es[j].kind) < tier || (Tier(es[j].kind) == tier && j < pos)
  }

  /** What is retained of a meeting so far comes from different pieces of its evidence that have had their turn. */
  ghost predicate Held(es: seq<Evidence>, items: seq<Evidence>, tier: nat, pos: nat) {
    && (forall e | e in items :: exists j :: 0 <= j < |es| && Retains(es[j], e) && Before(es, j, tier, pos))
    && Ledgers.DistinctIds(items) && Ledgers.MetadataInOrder(items)
  }

  ghost predicate MeetingValid(m: Packed) {
    var es := m.outcome.evidence;
    && Ledgers.DistinctIds(es) && Ledgers.MetadataInOrder(es)
    && forall i | 0 <= i < |es| :: es[i].id.Alias? && es[i].id.meeting == m.number
  }

  lemma RetainsKeeps(original: Evidence, e: Evidence)
    requires Retains(original, e)
    ensures e.id == original.id && e.kind == original.kind && e.speaker == original.speaker && e.startSecs == original.startSecs
    ensures e.meta == original.meta && e.text <= original.text && (original.kind.MetadataItem? ==> e == original)
  {
  }

  /** A cut says so, and its offsets stay within the original's and span no more than what is left of the text. */
  lemma CutIsMarked(original: Evidence, e: Evidence)
    requires Retains(original, e) && e != original
    ensures e.truncated && !original.kind.MetadataItem? && e.text < original.text
    ensures e.offsets.Some? <==> original.offsets.Some?
    ensures original.offsets.Some? ==>
              var was, now := original.offsets.value, e.offsets.value;
              && now.start == was.start && now.end <= was.end && now.end - now.start <= |e.text|
              && (now.end == was.end || now.end - now.start == |e.text|)
  {
  }

  lemma Push(m: Packed, items: seq<Evidence>, tier: nat, pos: nat, e: Evidence)
    requires MeetingValid(m) && pos < |m.outcome.evidence| && Held(m.outcome.evidence, items, tier, pos)
    requires Tier(m.outcome.evidence[pos].kind) == tier && Retains(m.outcome.evidence[pos], e)
    ensures Held(m.outcome.evidence, items + [e], tier, pos + 1)
  {
    var es := m.outcome.evidence;
    RetainsKeeps(es[pos], e);
    forall k | 0 <= k < |items| ensures items[k].id != e.id && (items[k].kind.MetadataItem? && e.kind.MetadataItem? ==> Ledgers.NumberOf(items[k]) < Ledgers.NumberOf(e)) {
      assert items[k] in items;
      var j :| 0 <= j < |es| && Retains(es[j], items[k]) && Before(es, j, tier, pos);
      RetainsKeeps(es[j], items[k]);
    }
    forall x | x in items + [e] ensures exists j :: 0 <= j < |es| && Retains(es[j], x) && Before(es, j, tier, pos + 1) {
      if x in items {
        var j :| 0 <= j < |es| && Retains(es[j], x) && Before(es, j, tier, pos);
        assert Before(es, j, tier, pos + 1);
      } else {
        assert Before(es, pos, tier, pos + 1);
      }
    }
  }

  lemma Later(es: seq<Evidence>, items: seq<Evidence>, tier: nat, pos: nat, nextTier: nat, nextPos: nat)
    requires Held(es, items, tier, pos) && (nextTier > tier || (nextTier == tier && nextPos >= pos))
    ensures Held(es, items, nextTier, nextPos)
  {
    forall e | e in items ensures exists j :: 0 <= j < |es| && Retains(es[j], e) && Before(es, j, nextTier, nextPos) {
      var j :| 0 <= j < |es| && Retains(es[j], e) && Before(es, j, tier, pos);
      assert Before(es, j, nextTier, nextPos);
    }
  }

  function Pushed(retained: seq<seq<Evidence>>, index: nat, e: Evidence): seq<seq<Evidence>>
    requires index < |retained|
  {
    retained[index := retained[index] + [e]]
  }

  /** The package with `n` characters of an item fits. */
  predicate Fits(src: Packer, retained: seq<seq<Evidence>>, index: nat, item: Evidence, limit: int, n: nat) {
    index < |retained| && n <= |item.text| && src.chars(Pushed(retained, index, Cut(item, n))) <= limit
  }

  function Fitting(src: Packer, retained: seq<seq<Evidence>>, index: nat, item: Evidence, limit: int): nat -> bool {
    (n: nat) => Fits(src, retained, index, item, limit, n)
  }

  function Middle(low: nat, high: int): (m: nat)
    requires low <= high
    ensures low <= m <= high
  {
    (low + high) / 2
  }

  /** Where the binary search between `low` and `high` ends, with the best length so far. */
  function Search(low: nat, high: int, best: Option<nat>, fits: nat -> bool): (r: Option<nat>)
    requires low <= high + 1
    ensures r == best || (r.Some? && low <= r.value <= high && fits(r.value))
    decreases high + 1 - low
  {
    if low > high then best
    else
      var length := Middle(low, high);
      if fits(length) then Search(length + 1, high, Some(length), fits) else Search(low, length - 1, best, fits)
  }

  /** Shorter cuts fit where longer ones do. */
  ghost predicate Shrinking(size: nat, fits: nat -> bool) { forall a, b | 0 <= a <= b < size && fits(b) :: fits(a) }

  lemma {:induction false} SearchIsLongest(low: nat, high: int, best: Option<nat>, fits: nat -> bool, size: nat, n: nat)
    requires low <= high + 1 <= size && n < size && forall a | 0 <= a <= n :: fits(a)
    requires if best.Some? then best.value + 1 == low else low == 0
    requires high + 1 < size ==> !fits(high + 1)
    ensures var r := Search(low, high, best, fits); r.Some? && n <= r.value
    decreases high + 1 - low
  {
    if low <= high {
      var length := Middle(low, high);
      if fits(length) {
        SearchIsLongest(length + 1, high, Some(length), fits, size, n);
      } else {
        SearchIsLongest(low, length - 1, best, fits, size, n);
      }
    }
  }

  /**
    The binary search among the lengths below `size`: one that fits, if one is found; and if shorter cuts
    always fit where longer ones do, then the longest.
   */
  method LongestCut(size: nat, fits: nat -> bool) returns (best: Option<nat>)
    ensures best == Search(0, size - 1, None, fits)
    ensures best.Some? ==> best.value < size && fits(best.value)
    ensures Shrinking(size, fits) ==> forall n | 0 <= n < size :: fits(n) ==> best.Some? && n <= best.value
  {
    if Shrinking(size, fits) {
      forall n | 0 <= n < size && fits(n) ensures var r := Search(0, size - 1, None, fits); r.Some? && n <= r.value {
        SearchIsLongest(0, size - 1, None, fits, size, n);
      }
    }
    var low: nat := 0;
    var high: int := size - 1;
    best := None;
    while low <= high
      invariant 0 <= low <= high + 1 <= size
      invariant Search(low, high, best, fits) == Search(0, size - 1, None, fits)
      decreases high - low
    {
      var length: int := Middle(low, high);
      if fits(length) {
        best, low := Some(length), length + 1;
      } else {
        high := length - 1;
      }
    }
  }

  /** The form in which an item is retained, if it is. */
  function Form(src: Packer, retained: seq<seq<Evidence>>, index: nat, item: Evidence, limit: int): Option<Evidence>
    requires index < |retained|
  {
    if src.chars(Pushed(retained, index, item)) <= limit then Some(item)
    else if item.kind.MetadataItem? then None
    else
      var best := Search(0, |item.text| - 1, None, Fitting(src, retained, index, item, limit));
      if best.Some? && |Trim(item.text[..best.value])| >= SHORTEST then Some(Cut(item, best.value)) else None
  }

  /** An item is retained whole exactly when it fits; whatever form it is retained in is allowed and fits. */
  lemma FormIs(src: Packer, retained: seq<seq<Evidence>>, index: nat, item: Evidence, limit: int)
    requires index < |retained|
    ensures var form := Form(src, retained, index, item, limit);
      && (form == Some(item) <==> src.chars(Pushed(retained, index, item)) <= limit)
      && (form.Some? ==> Retains(item, form.value) && src.chars(Pushed(retained, index, form.value)) <= limit)
  {
  }

  lemma LongestIsLong(text: string, fits: nat -> bool, n: nat)
    requires Shrinking(|text|, fits) && n < |text| && fits(n) && |Trim(text[..n])| >= SHORTEST
    ensures var best := Search(0, |text| - 1, None, fits);
      best.Some? && n <= best.value < |text| && |Trim(text[..best.value])| >= SHORTEST
  {
    SearchIsLongest(0, |text| - 1, None, fits, |text|, n);
    var best := Search(0, |text| - 1, None, fits).value;
    TrimGrows(text[..best], n);
    assert text[..best][..n] == text[..n];
  }

  /** If shorter cuts fit where longer ones do, then an item of which a cut of 80 characters fits is retained, and no longer cut of it fits. */
  lemma FormIsLongest(src: Packer, retained: seq<seq<Evidence>>, index: nat, item: Evidence, limit: int, n: nat)
    requires index < |retained| && !item.kind.MetadataItem? && Shrinking(|item.text|, Fitting(src, retained, index, item, limit))
    requires n < |item.text| && Fits(src, retained, index, item, limit, n) && |Trim(item.text[..n])| >= SHORTEST
    ensures var form := Form(src, retained, index, item, limit); form.Some? && n <= |form.value.text|
  {
    LongestIsLong(item.text, Fitting(src, retained, index, item, limit), n);
  }

  lemma NoCutIsLonger(src: Packer, retained: seq<seq<Evidence>>, index: nat, item: Evidence, limit: int)
    requires index < |retained| && !item.kind.MetadataItem? && Shrinking(|item.text|, Fitting(src, retained, index, item, limit))
    ensures var form := Form(src, retained, index, item, limit);
      forall n | 0 <= n < |item.text| && Fits(src, retained, index, item, limit, n) && |Trim(item.text[..n])| >= SHORTEST ::
        form.Some? && n <= |form.value.text|
  {
    var form := Form(src, retained, index, item, limit);
    forall n | 0 <= n < |item.text| && Fits(src, retained, index, item, limit, n) && |Trim(item.text[..n])| >= SHORTEST
      ensures form.Some? && n <= |form.value.text|
    {
      FormIsLongest(src, retained, index, item, limit, n);
    }
  }

  /** The form in which an item is retained, if it is: one that is allowed, and with which the package fits. */
  method ChooseForm(src: Packer, retained: seq<seq<Evidence>>, index: nat, item: Evidence, limit: int) returns (form: Option<Evidence>)
    requires index < |retained|
    ensures form == Form(src, retained, index, item, limit)
    ensures form.Some? ==> Retains(item, form.value) && src.chars(Pushed(retained, index, form.value)) <= limit
    ensures src.chars(Pushed(retained, index, item)) <= limit <==> form == Some(item)
    ensures !item.kind.MetadataItem? && Shrinking(|item.text|, Fitting(src, retained, index, item, limit)) ==>
              forall n | 0 <= n < |item.text| && Fits(src, retained, index, item, limit, n) && |Trim(item.text[..n])| >= SHORTEST ::
                form.Some? && n <= |form.value.text|
  {
    FormIs(src, retained, index, item, limit);
    if !item.kind.MetadataItem? && Shrinking(|item.text|, Fitting(src, retained, index, item, limit)) {
      NoCutIsLonger(src, retained, index, item, limit);
    }
    if src.chars(Pushed(retained, index, item)) <= limit {
      return Some(item);
    }
    if item.kind.MetadataItem? {
      return None;
    }
    var best := LongestCut(|item.text|, Fitting(src, retained, index, item, limit));
    if best.Some? && |Trim(item.text[..best.value])| >= SHORTEST {
      return Some(Cut(item, best.value));
    }
    return None;
  }

  /** What is retained after the evidence at `pos` has had its turn. */
  function WithForm(retained: seq<seq<Evidence>>, index: nat, form: Option<Evidence>): (after: seq<seq<Evidence>>)
    requires index < |retained|
    ensures |after| == |retained|
  {
    if form.Some? then Pushed(retained, index, form.value) else retained
  }

  /** What is retained after the first `pos` pieces of a meeting have had their turns in a tier. */
  function Turns(src: Packer, retained: seq<seq<Evidence>>, index: nat, tier: nat, limit: int, pos: nat): (after: seq<seq<Evidence>>)
    requires index < |retained| && index < |src.originals| && pos <= |src.originals[index].outcome.evidence|
    ensures |after| == |retained|
  {
    if pos == 0 then retained
    else
      var before, item := Turns(src, retained, index, tier, limit, pos - 1), src.originals[index].outcome.evidence[pos - 1];
      if Tier(item.kind) == tier then WithForm(before, index, Form(src, before, index, item, limit)) else before
  }

  function Share(room: int, sharing: nat): nat { Max(0, room) / Max(1, sharing) }

  /** What a meeting may fill the package up to in its turn. */
  function Limit(src: Packer, retained: seq<seq<Evidence>>, maxChars: int, share: nat): int { Min(maxChars, src.chars(retained) + share) }

  predicate HasTier(m: Packed, tier: nat) { exists i :: 0 <= i < |m.outcome.evidence| && Tier(m.outcome.evidence[i].kind) == tier }

  /** The equal share of a tier: the room left at its start, by the meetings that have evidence in it. */
  function TierShare(src: Packer, retained: seq<seq<Evidence>>, tier: nat, maxChars: int): nat {
    Share(maxChars - src.chars(retained), CountIf(src.originals, (m: Packed) => HasTier(m, tier)))
  }

  function Turn(src: Packer, retained: seq<seq<Evidence>>, i: nat, tier: nat, maxChars: int, share: nat): (after: seq<seq<Evidence>>)
    requires i < |src.originals| == |retained|
    ensures |after| == |retained|
  {
    if HasTier(src.originals[i], tier)
    then Turns(src, retained, i, tier, Limit(src, retained, maxChars, share), |src.originals[i].outcome.evidence|)
    else retained
  }

  /** What is retained after the first `n` meetings have had their turns in a tier that began with `retained`. */
  function TierTurns(src: Packer, retained: seq<seq<Evidence>>, tier: nat, maxChars: int, n: nat): (after: seq<seq<Evidence>>)
    requires n <= |src.originals| == |retained|
    ensures |after| == |retained|
  {
    if n == 0 then retained
    else Turn(src, TierTurns(src, retained, tier, maxChars, n - 1), n - 1, tier, maxChars, TierShare(src, retained, tier, maxChars))
  }

  /** What is retained when tier `tier` begins. */
  function Tiers(src: Packer, maxChars: int, tier: nat): (after: seq<seq<Evidence>>)
    ensures |after| == |src.originals|
  {
    if tier == 0 then Nothing(|src.originals|)
    else TierTurns(src, Tiers(src, maxChars, tier - 1), tier - 1, maxChars, |src.originals|)
  }

  function Nothing(n: nat): seq<seq<Evidence>> { seq(n, i => []) }

  /** What is retained when meeting `i` has its turn in a tier, and what it may fill the package up to. */
  function BeforeMeeting(src: Packer, maxChars: int, tier: nat, i: nat): seq<seq<Evidence>>
    requires i <= |src.originals|
  {
    TierTurns(src, Tiers(src, maxChars, tier), tier, maxChars, i)
  }

  function MeetingLimit(src: Packer, maxChars: int, tier: nat, i: nat): int
    requires i < |src.originals|
  {
    Limit(src, BeforeMeeting(src, maxChars, tier, i), maxChars, TierShare(src, Tiers(src, maxChars, tier), tier, maxChars))
  }

  /** The form in which piece `p` of meeting `i` is retained at its turn. */
  function FormAt(src: Packer, maxChars: int, i: nat, p: nat): Option<Evidence>
    requires i < |src.originals| && p < |src.originals[i].outcome.evidence|
  {
    var item := src.originals[i].outcome.evidence[p];
    Form(src, BeforePiece(src, maxChars, i, p), i, item, MeetingLimit(src, maxChars, Tier(item.kind), i))
  }

  function BeforePiece(src: Packer, maxChars: int, i: nat, p: nat): (before: seq<seq<Evidence>>)
    requires i < |src.originals| && p < |src.originals[i].outcome.evidence|
    ensures |before| == |src.originals|
  {
    var tier := Tier(src.originals[i].outcome.evidence[p].kind);
    Turns(src, BeforeMeeting(src, maxChars, tier, i), i, tier, MeetingLimit(src, maxChars, tier, i), p)
  }

  lemma {:induction false} TurnsFit(src: Packer, retained: seq<seq<Evidence>>, index: nat, tier: nat, limit: int, pos: nat)
    requires index < |retained| && index < |src.originals| && pos <= |src.originals[index].outcome.evidence|
    ensures src.chars(Turns(src, retained, index, tier, limit, pos)) <= Max(src.chars(retained), limit)
  {
    if pos > 0 {
      TurnsFit(src, retained, index, tier, limit, pos - 1);
      FormIs(src, Turns(src, retained, index, tier, limit, pos - 1), index, src.originals[index].outcome.evidence[pos - 1], limit);
    }
  }

  lemma TurnFits(src: Packer, before: seq<seq<Evidence>>, i: nat, tier: nat, maxChars: int, share: nat)
    requires i < |src.originals| == |before|
    ensures src.chars(Turn(src, before, i, tier, maxChars, share)) <= src.chars(before) + share
  {
    if HasTier(src.originals[i], tier) {
      TurnsFit(src, before, i, tier, Limit(src, before, maxChars, share), |src.originals[i].outcome.evidence|);
    }
  }

  // ── The equal share ────────────────────────────────────────────────────────

  /** How many meetings have evidence in a tier. */
  function Sharers(src: Packer, tier: nat): nat {
    |set i: nat | i < |src.originals| && (exists e :: e in src.originals[i].outcome.evidence && Tier(e.kind) == tier)|
  }

  /** The places of the elements that satisfy `p`. */
  function Places<T>(es: seq<T>, p: T -> bool): set<nat> { set i: nat | i < |es| && p(es[i]) }

  lemma PlacesLast<T>(front: seq<T>, x: T, p: T -> bool)
    ensures Places(front + [x], p) == if p(x) then Places(front, p) + {|front|} else Places(front, p)
  {
    assert forall i | 0 <= i < |front| :: (front + [x])[i] == front[i];
  }

  lemma {:induction false} CountIsSize<T>(es: seq<T>, p: T -> bool)
    ensures CountIf(es, p) == |Places(es, p)|
  {
    if es == [] {
      assert Places(es, p) == {};
    } else {
      CountIsSize(es[..|es| - 1], p);
      PlacesLast(es[..|es| - 1], es[|es| - 1], p);
      FrontAndLast(es);
    }
  }

  lemma {:induction false} CountPrefix<T>(es: seq<T>, p: T -> bool, k: nat)
    requires k <= |es|
    ensures CountIf(es[..k], p) <= CountIf(es, p)
    decreases |es| - k
  {
    if k < |es| {
      CountLast(es, p, k);
      CountPrefix(es, p, k + 1);
    } else {
      assert es[..k] == es;
    }
  }

  lemma CountLast<T>(es: seq<T>, p: T -> bool, k: nat)
    requires k < |es|
    ensures CountIf(es[..k + 1], p) == CountIf(es[..k], p) + if p(es[k]) then 1 else 0
  {
    assert es[..k + 1][..k] == es[..k];
  }

  lemma HasTierIff(m: Packed, tier: nat)
    ensures HasTier(m, tier) <==> exists e :: e in m.outcome.evidence && Tier(e.kind) == tier
  {
    if e :| e in m.outcome.evidence && Tier(e.kind) == tier {
      var i :| 0 <= i < |m.outcome.evidence| && m.outcome.evidence[i] == e;
    }
  }

  lemma InTier(src: Packer, tier: nat)
    ensures CountIf(src.originals, (m: Packed) => HasTier(m, tier)) == Sharers(src, tier)
  {
    CountIsSize(src.originals, (m: Packed) => HasTier(m, tier));
    var p := (m: Packed) => HasTier(m, tier);
    forall i: nat | i < |src.originals| ensures p(src.originals[i]) <==> exists e :: e in src.originals[i].outcome.evidence && Tier(e.kind) == tier {
      HasTierIff(src.originals[i], tier);
    }
    assert Places(src.originals, p) == set i: nat | i < |src.originals| && (exists e :: e in src.originals[i].outcome.evidence && Tier(e.kind) == tier);
  }

  /** How many of the first `i` meetings have evidence in a tier. */
  function Earlier(src: Packer, tier: nat, i: nat): nat
    requires i <= |src.originals|
  {
    CountIf(src.originals[..i], (m: Packed) => HasTier(m, tier))
  }

  lemma EarlierSharers(src: Packer, tier: nat, i: nat)
    requires i < |src.originals|
    ensures Earlier(src, tier, i + 1) == Earlier(src, tier, i) + (if HasTier(src.originals[i], tier) then 1 else 0)
    ensures Earlier(src, tier, i + 1) <= Sharers(src, tier)
  {
    CountLast(src.originals, (m: Packed) => HasTier(m, tier), i);
    CountPrefix(src.originals, (m: Packed) => HasTier(m, tier), i + 1);
    InTier(src, tier);
  }

  lemma ShareOfTier(src: Packer, retained: seq<seq<Evidence>>, tier: nat, maxChars: int)
    ensures TierShare(src, retained, tier, maxChars) == Share(maxChars - src.chars(retained), Sharers(src, tier))
  {
    InTier(src, tier);
  }

  lemma Times(n: nat, a: int, b: int)
    requires a <= b
    ensures n * a <= n * b
  {
  }

  lemma ShareIs(room: int, n: nat)
    requires room >= 0 && n > 0
    ensures n * Share(room, n) <= room < n * (Share(room, n) + 1)
  {
    var q := room / n;
    assert room == n * q + room % n;
  }

  lemma Quotient(room: int, n: nat, g: int)
    requires room >= 0 && n > 0
    ensures g <= Share(room, n) <==> n * g <= room
  {
    ShareIs(room, n);
    if g <= Share(room, n) {
      Times(n, g, Share(room, n));
    } else {
      Times(n, Share(room, n) + 1, g);
    }
  }

  lemma OneMore(k: nat, share: nat, start: int, before: int, after: int)
    requires before <= start + k * share && after <= before + share
    ensures after <= start + (k + 1) * share
  {
  }

  /** Before a meeting's turn, no more than one share for each meeting before it is used up. */
  lemma {:induction false} Used(src: Packer, maxChars: int, tier: nat, i: nat)
    requires i <= |src.originals|
    ensures var start := Tiers(src, maxChars, tier);
      src.chars(BeforeMeeting(src, maxChars, tier, i))
        <= src.chars(start) + Earlier(src, tier, i) * TierShare(src, start, tier, maxChars)
  {
    var start := Tiers(src, maxChars, tier);
    var share := TierShare(src, start, tier, maxChars);
    if i > 0 {
      Used(src, maxChars, tier, i - 1);
      EarlierSharers(src, tier, i - 1);
      if HasTier(src.originals[i - 1], tier) {
        var before := BeforeMeeting(src, maxChars, tier, i - 1);
        TurnFits(src, before, i - 1, tier, maxChars, share);
        OneMore(Earlier(src, tier, i - 1), share, src.chars(start), src.chars(before), src.chars(Turn(src, before, i - 1, tier, maxChars, share)));
      }
    }
  }

  lemma WithinRoom(room: int, n: nat, k: nat, start: int, before: int, maxChars: int)
    requires room == maxChars - start >= 0 && k < n && before <= start + k * Share(room, n)
    ensures before + Share(room, n) <= maxChars
  {
    var share := Share(room, n);
    ShareIs(room, n);
    Times(share, k + 1, n);
    OneMore(k, share, start, before, before + share);
  }

  /** One more share always fits into the room. */
  lemma RoomLeft(src: Packer, maxChars: int, tier: nat, i: nat)
    requires i < |src.originals| && HasTier(src.originals[i], tier) && src.chars(Tiers(src, maxChars, tier)) <= maxChars
    ensures var share := Share(maxChars - src.chars(Tiers(src, maxChars, tier)), Sharers(src, tier));
      && TierShare(src, Tiers(src, maxChars, tier), tier, maxChars) == share && Sharers(src, tier) > 0
      && src.chars(BeforeMeeting(src, maxChars, tier, i)) + share <= maxChars
      && MeetingLimit(src, maxChars, tier, i) == src.chars(BeforeMeeting(src, maxChars, tier, i)) + share
  {
    var start := Tiers(src, maxChars, tier);
    ShareOfTier(src, start, tier, maxChars);
    Used(src, maxChars, tier, i);
    EarlierSharers(src, tier, i);
    WithinRoom(maxChars - src.chars(start), Sharers(src, tier), Earlier(src, tier, i), src.chars(start),
               src.chars(BeforeMeeting(src, maxChars, tier, i)), maxChars);
  }

  /**
    What the equal share means. Whatever would bring the package to `c` characters in the turn of a
    meeting fits exactly when all meetings of the tier could grow by as much within the room the tier
    began with.
   */
  lemma LimitIff(src: Packer, maxChars: int, tier: nat, i: nat, c: int)
    requires i < |src.originals| && HasTier(src.originals[i], tier) && src.chars(Tiers(src, maxChars, tier)) <= maxChars
    ensures c <= MeetingLimit(src, maxChars, tier, i) <==>
              Sharers(src, tier) * (c - src.chars(BeforeMeeting(src, maxChars, tier, i))) <= maxChars - src.chars(Tiers(src, maxChars, tier))
  {
    RoomLeft(src, maxChars, tier, i);
    Quotient(maxChars - src.chars(Tiers(src, maxChars, tier)), Sharers(src, tier), c - src.chars(BeforeMeeting(src, maxChars, tier, i)));
  }

  lemma TurnStays(src: Packer, before: seq<seq<Evidence>>, i: nat, tier: nat, maxChars: int, share: nat)
    requires i < |src.originals| == |before| && src.chars(before) <= maxChars
    ensures src.chars(Turn(src, before, i, tier, maxChars, share)) <= maxChars
  {
    if HasTier(src.originals[i], tier) {
      TurnsFit(src, before, i, tier, Limit(src, before, maxChars, share), |src.originals[i].outcome.evidence|);
    }
  }

  lemma {:induction false} TierFits(src: Packer, retained: seq<seq<Evidence>>, tier: nat, maxChars: int, n: nat)
    requires n <= |src.originals| == |retained| && src.chars(retained) <= maxChars
    ensures src.chars(TierTurns(src, retained, tier, maxChars, n)) <= maxChars
  {
    if n > 0 {
      TierFits(src, retained, tier, maxChars, n - 1);
      TurnStays(src, TierTurns(src, retained, tier, maxChars, n - 1), n - 1, tier, maxChars, TierShare(src, retained, tier, maxChars));
    }
  }

  /** If the identities alone fit, then so does what is retained when any tier begins. */
  lemma {:induction false} TiersFit(src: Packer, maxChars: int, tier: nat)
    requires src.chars(Nothing(|src.originals|)) <= maxChars
    ensures src.chars(Tiers(src, maxChars, tier)) <= maxChars
  {
    if tier > 0 {
      TiersFit(src, maxChars, tier - 1);
      TierFits(src, Tiers(src, maxChars, tier - 1), tier - 1, maxChars, |src.originals|);
    }
  }

  /** No meeting's turn in a tier makes the package grow by more than its part of the room that the tier began with. */
  lemma GrowthIsShared(src: Packer, maxChars: int, tier: nat, i: nat)
    requires i < |src.originals| && src.chars(Nothing(|src.originals|)) <= maxChars
    ensures Sharers(src, tier) * (src.chars(BeforeMeeting(src, maxChars, tier, i + 1)) - src.chars(BeforeMeeting(src, maxChars, tier, i)))
              <= maxChars - src.chars(Tiers(src, maxChars, tier))
    ensures !HasTier(src.originals[i], tier) ==> BeforeMeeting(src, maxChars, tier, i + 1) == BeforeMeeting(src, maxChars, tier, i)
  {
    TiersFit(src, maxChars, tier);
    var before := BeforeMeeting(src, maxChars, tier, i);
    if HasTier(src.originals[i], tier) {
      TurnFits(src, before, i, tier, maxChars, TierShare(src, Tiers(src, maxChars, tier), tier, maxChars));
      RoomLeft(src, maxChars, tier, i);
      LimitIff(src, maxChars, tier, i, src.chars(BeforeMeeting(src, maxChars, tier, i + 1)));
    }
  }

  /** The turn of another piece of evidence leaves what is retained of this one as it is. */
  lemma FormLeaves(before: seq<seq<Evidence>>, index: nat, item: Evidence, form: Option<Evidence>, i: nat, x: Evidence)
    requires index < |before| && i < |before| && (form.Some? ==> Retains(item, form.value)) && (index == i ==> item.id != x.id)
    ensures x in WithForm(before, index, form)[i] <==> x in before[i]
  {
    if form.Some? { RetainsKeeps(item, form.value); }
  }

  predicate PieceOf(src: Packer, i: nat, p: nat, x: Evidence) {
    i < |src.originals| && p < |src.originals[i].outcome.evidence| && x.id == src.originals[i].outcome.evidence[p].id
  }

  lemma TurnLeaves(src: Packer, before: seq<seq<Evidence>>, index: nat, limit: int, q: nat, i: nat, p: nat, x: Evidence)
    requires MeetingsValid(src.originals) && index < |src.originals| == |before| && q < |src.originals[index].outcome.evidence|
    requires PieceOf(src, i, p, x) && (index != i || q != p)
    ensures var item := src.originals[index].outcome.evidence[q];
      x in WithForm(before, index, Form(src, before, index, item, limit))[i] <==> x in before[i]
  {
    var item := src.originals[index].outcome.evidence[q];
    FormIs(src, before, index, item, limit);
    assert MeetingValid(src.originals[i]);
    FormLeaves(before, index, item, Form(src, before, index, item, limit), i, x);
  }

  lemma {:induction false} TurnsLeave(src: Packer, retained: seq<seq<Evidence>>, index: nat, tier: nat, limit: int, pos: nat, i: nat, p: nat, x: Evidence)
    requires MeetingsValid(src.originals) && index < |src.originals| == |retained| && pos <= |src.originals[index].outcome.evidence|
    requires PieceOf(src, i, p, x) && (index != i || tier != Tier(src.originals[i].outcome.evidence[p].kind) || pos <= p)
    ensures x in Turns(src, retained, index, tier, limit, pos)[i] <==> x in retained[i]
  {
    if pos > 0 {
      TurnsLeave(src, retained, index, tier, limit, pos - 1, i, p, x);
      if Tier(src.originals[index].outcome.evidence[pos - 1].kind) == tier {
        TurnLeaves(src, Turns(src, retained, index, tier, limit, pos - 1), index, limit, pos - 1, i, p, x);
      }
    }
  }

  lemma TurnGives(src: Packer, before: seq<seq<Evidence>>, i: nat, limit: int, p: nat, x: Evidence)
    requires PieceOf(src, i, p, x) && |src.originals| == |before| && x !in before[i]
    ensures var form := Form(src, before, i, src.originals[i].outcome.evidence[p], limit);
      x in WithForm(before, i, form)[i] <==> form == Some(x)
  {
  }

  /** After its own turn, a piece of evidence is retained in the form chosen then, and in no other. */
  lemma {:induction false} TurnsGive(src: Packer, retained: seq<seq<Evidence>>, i: nat, tier: nat, limit: int, pos: nat, p: nat, x: Evidence)
    requires MeetingsValid(src.originals) && PieceOf(src, i, p, x) && |src.originals| == |retained| && p < pos <= |src.originals[i].outcome.evidence|
    requires tier == Tier(src.originals[i].outcome.evidence[p].kind) && x !in retained[i]
    ensures x in Turns(src, retained, i, tier, limit, pos)[i] <==>
              Form(src, Turns(src, retained, i, tier, limit, p), i, src.originals[i].outcome.evidence[p], limit) == Some(x)
  {
    if pos > p + 1 {
      TurnsGive(src, retained, i, tier, limit, pos - 1, p, x);
      if Tier(src.originals[i].outcome.evidence[pos - 1].kind) == tier {
        TurnLeaves(src, Turns(src, retained, i, tier, limit, pos - 1), i, limit, pos - 1, i, p, x);
      }
    } else {
      TurnsLeave(src, retained, i, tier, limit, p, i, p, x);
      TurnGives(src, Turns(src, retained, i, tier, limit, p), i, limit, p, x);
    }
  }

  lemma MeetingLeaves(src: Packer, before: seq<seq<Evidence>>, k: nat, tier: nat, maxChars: int, share: nat, i: nat, p: nat, x: Evidence)
    requires MeetingsValid(src.originals) && k < |src.originals| == |before|
    requires PieceOf(src, i, p, x) && (tier != Tier(src.originals[i].outcome.evidence[p].kind) || k != i)
    ensures x in Turn(src, before, k, tier, maxChars, share)[i] <==> x in before[i]
  {
    TurnsLeave(src, before, k, tier, Limit(src, before, maxChars, share), |src.originals[k].outcome.evidence|, i, p, x);
  }

  lemma {:induction false} TierLeaves(src: Packer, retained: seq<seq<Evidence>>, tier: nat, maxChars: int, n: nat, i: nat, p: nat, x: Evidence)
    requires MeetingsValid(src.originals) && n <= |src.originals| == |retained|
    requires PieceOf(src, i, p, x) && (tier != Tier(src.originals[i].outcome.evidence[p].kind) || n <= i)
    ensures x in TierTurns(src, retained, tier, maxChars, n)[i] <==> x in retained[i]
  {
    if n > 0 {
      TierLeaves(src, retained, tier, maxChars, n - 1, i, p, x);
      MeetingLeaves(src, TierTurns(src, retained, tier, maxChars, n - 1), n - 1, tier, maxChars, TierShare(src, retained, tier, maxChars), i, p, x);
    }
  }

  lemma {:induction false} TiersHaveNone(src: Packer, maxChars: int, tier: nat, i: nat, p: nat, x: Evidence)
    requires MeetingsValid(src.originals) && PieceOf(src, i, p, x) && tier <= Tier(src.originals[i].outcome.evidence[p].kind)
    ensures x !in Tiers(src, maxChars, tier)[i]
  {
    if tier > 0 {
      TiersHaveNone(src, maxChars, tier - 1, i, p, x);
      TierLeaves(src, Tiers(src, maxChars, tier - 1), tier - 1, maxChars, |src.originals|, i, p, x);
    }
  }

  lemma OwnTurnGives(src: Packer, maxChars: int, i: nat, p: nat, x: Evidence)
    requires MeetingsValid(src.originals) && PieceOf(src, i, p, x)
    ensures x in BeforeMeeting(src, maxChars, Tier(src.originals[i].outcome.evidence[p].kind), i + 1)[i] <==> FormAt(src, maxChars, i, p) == Some(x)
  {
    var tier := Tier(src.originals[i].outcome.evidence[p].kind);
    TiersHaveNone(src, maxChars, tier, i, p, x);
    TierLeaves(src, Tiers(src, maxChars, tier), tier, maxChars, i, i, p, x);
    assert HasTier(src.originals[i], tier);
    TurnsGive(src, BeforeMeeting(src, maxChars, tier, i), i, tier, MeetingLimit(src, maxChars, tier, i), |src.originals[i].outcome.evidence|, p, x);
  }

  lemma {:induction false} TierGives(src: Packer, maxChars: int, n: nat, i: nat, p: nat, x: Evidence)
    requires MeetingsValid(src.originals) && PieceOf(src, i, p, x) && i < n <= |src.originals|
    ensures x in BeforeMeeting(src, maxChars, Tier(src.originals[i].outcome.evidence[p].kind), n)[i] <==> FormAt(src, maxChars, i, p) == Some(x)
  {
    var tier := Tier(src.originals[i].outcome.evidence[p].kind);
    if n == i + 1 {
      OwnTurnGives(src, maxChars, i, p, x);
    } else {
      TierGives(src, maxChars, n - 1, i, p, x);
      MeetingLeaves(src, BeforeMeeting(src, maxChars, tier, n - 1), n - 1, tier, maxChars,
                    TierShare(src, Tiers(src, maxChars, tier), tier, maxChars), i, p, x);
    }
  }

  /** In the end, a piece of evidence is retained in the form that was chosen at its turn, and in no other. */
  lemma {:induction false} RetainedAtItsTurn(src: Packer, maxChars: int, tier: nat, i: nat, p: nat, x: Evidence)
    requires MeetingsValid(src.originals) && PieceOf(src, i, p, x) && tier > Tier(src.originals[i].outcome.evidence[p].kind)
    ensures x in Tiers(src, maxChars, tier)[i] <==> FormAt(src, maxChars, i, p) == Some(x)
  {
    if tier == Tier(src.originals[i].outcome.evidence[p].kind) + 1 {
      TierGives(src, maxChars, |src.originals|, i, p, x);
    } else {
      RetainedAtItsTurn(src, maxChars, tier - 1, i, p, x);
      TierLeaves(src, Tiers(src, maxChars, tier - 1), tier - 1, maxChars, |src.originals|, i, p, x);
    }
  }

  /** The growth of the package, from the start of its meeting's turn, that piece `p` would make in the form `x`. */
  function Growth(src: Packer, maxChars: int, i: nat, p: nat, x: Evidence): int
    requires i < |src.originals| && p < |src.originals[i].outcome.evidence|
  {
    src.chars(Pushed(BeforePiece(src, maxChars, i, p), i, x))
      - src.chars(BeforeMeeting(src, maxChars, Tier(src.originals[i].outcome.evidence[p].kind), i))
  }

  /** All meetings with evidence in the tier of piece `p` could grow by as much within the room the tier began with. */
  predicate Affordable(src: Packer, maxChars: int, i: nat, p: nat, x: Evidence)
    requires i < |src.originals| && p < |src.originals[i].outcome.evidence|
  {
    var tier := Tier(src.originals[i].outcome.evidence[p].kind);
    Sharers(src, tier) * Growth(src, maxChars, i, p, x) <= maxChars - src.chars(Tiers(src, maxChars, tier))
  }

  lemma AffordableIff(src: Packer, maxChars: int, i: nat, p: nat, x: Evidence)
    requires i < |src.originals| && p < |src.originals[i].outcome.evidence| && src.chars(Nothing(|src.originals|)) <= maxChars
    ensures var tier := Tier(src.originals[i].outcome.evidence[p].kind);
      Affordable(src, maxChars, i, p, x) <==> src.chars(Pushed(BeforePiece(src, maxChars, i, p), i, x)) <= MeetingLimit(src, maxChars, tier, i)
  {
    var tier := Tier(src.originals[i].outcome.evidence[p].kind);
    assert HasTier(src.originals[i], tier);
    TiersFit(src, maxChars, tier);
    LimitIff(src, maxChars, tier, i, src.chars(Pushed(BeforePiece(src, maxChars, i, p), i, x)));
  }

  /** A piece is retained whole in the end exactly when its meeting's equal share could afford it at its turn. */
  lemma WholeIff(src: Packer, maxChars: int, i: nat, p: nat)
    requires MeetingsValid(src.originals) && i < |src.originals| && p < |src.originals[i].outcome.evidence|
    requires src.chars(Nothing(|src.originals|)) <= maxChars
    ensures var item := src.originals[i].outcome.evidence[p];
      item in Tiers(src, maxChars, 3)[i] <==> Affordable(src, maxChars, i, p, item)
  {
    var item := src.originals[i].outcome.evidence[p];
    RetainedAtItsTurn(src, maxChars, 3, i, p, item);
    FormIs(src, BeforePiece(src, maxChars, i, p), i, item, MeetingLimit(src, maxChars, Tier(item.kind), i));
    AffordableIff(src, maxChars, i, p, item);
  }

  /** `n` characters of piece `p` are enough to be retained, and affordable. */
  predicate CutFits(src: Packer, maxChars: int, i: nat, p: nat, n: nat)
    requires i < |src.originals| && p < |src.originals[i].outcome.evidence|
  {
    var item := src.originals[i].outcome.evidence[p];
    n < |item.text| && |Trim(item.text[..n])| >= SHORTEST && Affordable(src, maxChars, i, p, Cut(item, n))
  }

  /** Longer cuts of piece `p` never make a shorter package. */
  ghost predicate Longer(src: Packer, maxChars: int, i: nat, p: nat)
    requires i < |src.originals| && p < |src.originals[i].outcome.evidence|
  {
    var item := src.originals[i].outcome.evidence[p];
    forall a, b | 0 <= a <= b < |item.text| :: Growth(src, maxChars, i, p, Cut(item, a)) <= Growth(src, maxChars, i, p, Cut(item, b))
  }

  lemma LongerShrinks(src: Packer, maxChars: int, i: nat, p: nat)
    requires i < |src.originals| && p < |src.originals[i].outcome.evidence| && Longer(src, maxChars, i, p)
    ensures var item := src.originals[i].outcome.evidence[p];
      Shrinking(|item.text|, Fitting(src, BeforePiece(src, maxChars, i, p), i, item, MeetingLimit(src, maxChars, Tier(item.kind), i)))
  {
    var item := src.originals[i].outcome.evidence[p];
    var fits := Fitting(src, BeforePiece(src, maxChars, i, p), i, item, MeetingLimit(src, maxChars, Tier(item.kind), i));
    forall a, b | 0 <= a <= b < |item.text| && fits(b) ensures fits(a) {
      assert Growth(src, maxChars, i, p, Cut(item, a)) <= Growth(src, maxChars, i, p, Cut(item, b));
    }
  }

  lemma CutIsKept(src: Packer, maxChars: int, i: nat, p: nat, n: nat) returns (x: Evidence)
    requires MeetingsValid(src.originals) && i < |src.originals| && p < |src.originals[i].outcome.evidence|
    requires src.chars(Nothing(|src.originals|)) <= maxChars && !src.originals[i].outcome.evidence[p].kind.MetadataItem?
    requires CutFits(src, maxChars, i, p, n) && Longer(src, maxChars, i, p)
    ensures x in Tiers(src, maxChars, 3)[i] && Retains(src.originals[i].outcome.evidence[p], x) && n <= |x.text|
  {
    var item := src.originals[i].outcome.evidence[p];
    var before, limit := BeforePiece(src, maxChars, i, p), MeetingLimit(src, maxChars, Tier(item.kind), i);
    AffordableIff(src, maxChars, i, p, Cut(item, n));
    LongerShrinks(src, maxChars, i, p);
    FormIsLongest(src, before, i, item, limit, n);
    FormIs(src, before, i, item, limit);
    x := Form(src, before, i, item, limit).value;
    RetainsKeeps(item, x);
    RetainedAtItsTurn(src, maxChars, 3, i, p, x);
  }

  /**
    Of a piece that is not metadata something is retained exactly when the whole or a cut of 80
    characters is affordable at its turn, if longer cuts never make a shorter package; and then no
    longer cut is affordable.
   */
  lemma RetainedIff(src: Packer, maxChars: int, i: nat, p: nat)
    requires MeetingsValid(src.originals) && i < |src.originals| && p < |src.originals[i].outcome.evidence|
    requires src.chars(Nothing(|src.originals|)) <= maxChars && !src.originals[i].outcome.evidence[p].kind.MetadataItem?
    requires Longer(src, maxChars, i, p)
    ensures var item := src.originals[i].outcome.evidence[p];
      Ledgers.HasId(Tiers(src, maxChars, 3)[i], item.id) <==>
        Affordable(src, maxChars, i, p, item) || exists n :: 0 <= n && CutFits(src, maxChars, i, p, n)
  {
    var item, all := src.originals[i].outcome.evidence[p], Tiers(src, maxChars, 3)[i];
    WholeIff(src, maxChars, i, p);
    Ledgers.HasIdIn(all, item.id);
    if Ledgers.HasId(all, item.id) {
      var x :| x in all && x.id == item.id;
      RetainedFits(src, maxChars, i, p, x);
    }
    if n :| 0 <= n && CutFits(src, maxChars, i, p, n) {
      var x := CutIsKept(src, maxChars, i, p, n);
      RetainsKeeps(item, x);
    }
  }

  /** Whatever is retained of a piece was affordable at its turn. */
  lemma RetainedFits(src: Packer, maxChars: int, i: nat, p: nat, x: Evidence)
    requires MeetingsValid(src.originals) && PieceOf(src, i, p, x) && x in Tiers(src, maxChars, 3)[i]
    requires src.chars(Nothing(|src.originals|)) <= maxChars
    ensures var item := src.originals[i].outcome.evidence[p];
      Affordable(src, maxChars, i, p, x) && (x == item || CutFits(src, maxChars, i, p, |x.text|))
  {
    var item := src.originals[i].outcome.evidence[p];
    RetainedAtItsTurn(src, maxChars, 3, i, p, x);
    FormIs(src, BeforePiece(src, maxChars, i, p), i, item, MeetingLimit(src, maxChars, Tier(item.kind), i));
    AffordableIff(src, maxChars, i, p, x);
  }

  /** What is retained when the first `pos` pieces of a meeting in a tier are all kept whole. */
  function AllWhole(src: Packer, retained: seq<seq<Evidence>>, i: nat, tier: nat, pos: nat): (after: seq<seq<Evidence>>)
    requires i < |src.originals| == |retained| && pos <= |src.originals[i].outcome.evidence|
    ensures |after| == |retained|
  {
    if pos == 0 then retained
    else
      var before, item := AllWhole(src, retained, i, tier, pos - 1), src.originals[i].outcome.evidence[pos - 1];
      if Tier(item.kind) == tier then Pushed(before, i, item) else before
  }

  /** All of a meeting's evidence in a tier is affordable. */
  ghost predicate AffordsAll(src: Packer, maxChars: int, tier: nat, i: nat, pos: nat)
    requires i < |src.originals| && pos <= |src.originals[i].outcome.evidence|
  {
    forall k | 0 < k <= pos ::
      var before := BeforeMeeting(src, maxChars, tier, i);
      Sharers(src, tier) * (src.chars(AllWhole(src, before, i, tier, k)) - src.chars(before)) <= maxChars - src.chars(Tiers(src, maxChars, tier))
  }

  lemma {:induction false} AllAreWhole(src: Packer, maxChars: int, tier: nat, i: nat, pos: nat)
    requires i < |src.originals| && HasTier(src.originals[i], tier) && pos <= |src.originals[i].outcome.evidence|
    requires src.chars(Nothing(|src.originals|)) <= maxChars && AffordsAll(src, maxChars, tier, i, pos)
    ensures var before := BeforeMeeting(src, maxChars, tier, i);
      Turns(src, before, i, tier, MeetingLimit(src, maxChars, tier, i), pos) == AllWhole(src, before, i, tier, pos)
  {
    if pos > 0 {
      AllAreWhole(src, maxChars, tier, i, pos - 1);
      TiersFit(src, maxChars, tier);
      LimitIff(src, maxChars, tier, i, src.chars(AllWhole(src, BeforeMeeting(src, maxChars, tier, i), i, tier, pos)));
    }
  }

  /** A tier in which every meeting can afford all of its evidence keeps all of it. */
  lemma TierIsWhole(src: Packer, maxChars: int, tier: nat, i: nat)
    requires i < |src.originals| && HasTier(src.originals[i], tier) && src.chars(Nothing(|src.originals|)) <= maxChars
    requires AffordsAll(src, maxChars, tier, i, |src.originals[i].outcome.evidence|)
    ensures BeforeMeeting(src, maxChars, tier, i + 1)
              == AllWhole(src, BeforeMeeting(src, maxChars, tier, i), i, tier, |src.originals[i].outcome.evidence|)
  {
    AllAreWhole(src, maxChars, tier, i, |src.originals[i].outcome.evidence|);
  }

  lemma FormIsHeld(src: Packer, before: seq<seq<Evidence>>, form: Option<Evidence>, index: nat, tier: nat, pos: nat)
    requires index < |before| && index < |src.originals| && MeetingValid(src.originals[index])
    requires var es := src.originals[index].outcome.evidence;
      pos < |es| && Tier(es[pos].kind) == tier && Held(es, before[index], tier, pos) && (form.Some? ==> Retains(es[pos], form.value))
    ensures var after := WithForm(before, index, form);
      after == before[index := after[index]] && Held(src.originals[index].outcome.evidence, after[index], tier, pos + 1)
  {
    if form.None? {
      Later(src.originals[index].outcome.evidence, before[index], tier, pos, tier, pos + 1);
    } else {
      Push(src.originals[index], before[index], tier, pos, form.value);
    }
  }

  /** Only meeting `index` may have changed, and what it holds has had its turn. */
  ghost predicate Turned(src: Packer, before: seq<seq<Evidence>>, after: seq<seq<Evidence>>, index: nat, tier: nat, pos: nat) {
    && index < |before| == |after| && index < |src.originals| && after == before[index := after[index]]
    && Held(src.originals[index].outcome.evidence, after[index], tier, pos)
  }

  lemma NextTurn(src: Packer, first: seq<seq<Evidence>>, before: seq<seq<Evidence>>, form: Option<Evidence>, index: nat, tier: nat, pos: nat)
    requires Turned(src, first, before, index, tier, pos) && MeetingValid(src.originals[index]) && pos < |src.originals[index].outcome.evidence|
    requires form.Some? ==> Tier(src.originals[index].outcome.evidence[pos].kind) == tier && Retains(src.originals[index].outcome.evidence[pos], form.value)
    ensures Turned(src, first, WithForm(before, index, form), index, tier, pos + 1)
  {
    if Tier(src.originals[index].outcome.evidence[pos].kind) == tier {
      FormIsHeld(src, before, form, index, tier, pos);
    } else {
      Later(src.originals[index].outcome.evidence, before[index], tier, pos, tier, pos + 1);
    }
  }

  /** One meeting's turn in a tier: the package grows by at most `share`, and stays within `maxChars`. */
  method PackMeeting(src: Packer, retained: seq<seq<Evidence>>, index: nat, tier: nat, maxChars: int, share: nat) returns (next: seq<seq<Evidence>>)
    requires index < |src.originals| && MeetingValid(src.originals[index])
    requires Turned(src, retained, retained, index, tier, 0) && src.chars(retained) <= maxChars
    ensures Turned(src, retained, next, index, tier + 1, 0)
    ensures next == Turns(src, retained, index, tier, Limit(src, retained, maxChars, share), |src.originals[index].outcome.evidence|)
    ensures src.chars(next) <= maxChars && src.chars(next) <= src.chars(retained) + share
  {
    var es := src.originals[index].outcome.evidence;
    var limit := Limit(src, retained, maxChars, share);
    next := retained;
    for pos := 0 to |es|
      invariant Turned(src, retained, next, index, tier, pos) && src.chars(next) <= limit
      invariant next == Turns(src, retained, index, tier, limit, pos)
    {
      var form: Option<Evidence> := None;
      if Tier(es[pos].kind) == tier {
        form := ChooseForm(src, next, index, es[pos], limit);
      }
      NextTurn(src, retained, next, form, index, tier, pos);
      next := WithForm(next, index, form);
    }
    Later(es, next[index], tier, |es|, tier + 1, 0);
  }

  /** The turns of all meetings in all tiers. */
  ghost predicate Packing(ms: seq<Packed>, retained: seq<seq<Evidence>>, tier: nat) {
    && |retained| == |ms|
    && forall i {:trigger retained[i]} | 0 <= i < |retained| :: Held(ms[i].outcome.evidence, retained[i], tier, 0)
  }

  ghost predicate MeetingsValid(ms: seq<Packed>) { forall i {:trigger ms[i]} | 0 <= i < |ms| :: MeetingValid(ms[i]) }

  /** The first `i` meetings have had their turn in `tier`. */
  ghost predicate Progress(src: Packer, retained: seq<seq<Evidence>>, i: nat, tier: nat) {
    && |retained| == |src.originals|
    && forall k {:trigger retained[k]} | 0 <= k < |retained| ::
         Held(src.originals[k].outcome.evidence, retained[k], if k < i then tier + 1 else tier, 0)
  }

  lemma NextMeeting(src: Packer, before: seq<seq<Evidence>>, after: seq<seq<Evidence>>, i: nat, tier: nat)
    requires Progress(src, before, i, tier) && i < |before| == |after| && after == before[i := after[i]]
    requires Held(src.originals[i].outcome.evidence, after[i], tier + 1, 0)
    ensures Progress(src, after, i + 1, tier)
  {
  }

  lemma {:induction false} TurnsTurned(src: Packer, retained: seq<seq<Evidence>>, index: nat, tier: nat, limit: int, pos: nat)
    requires index < |src.originals| && MeetingValid(src.originals[index]) && pos <= |src.originals[index].outcome.evidence|
    requires Turned(src, retained, retained, index, tier, 0)
    ensures Turned(src, retained, Turns(src, retained, index, tier, limit, pos), index, tier, pos)
  {
    if pos > 0 {
      TurnsTurned(src, retained, index, tier, limit, pos - 1);
      var before, item := Turns(src, retained, index, tier, limit, pos - 1), src.originals[index].outcome.evidence[pos - 1];
      FormIs(src, before, index, item, limit);
      NextTurn(src, retained, before, if Tier(item.kind) == tier then Form(src, before, index, item, limit) else None, index, tier, pos - 1);
    }
  }

  lemma TurnProgress(src: Packer, before: seq<seq<Evidence>>, i: nat, tier: nat, maxChars: int, share: nat)
    requires MeetingsValid(src.originals) && i < |src.originals| && Progress(src, before, i, tier)
    ensures Progress(src, Turn(src, before, i, tier, maxChars, share), i + 1, tier)
  {
    var es, after := src.originals[i].outcome.evidence, Turn(src, before, i, tier, maxChars, share);
    assert MeetingValid(src.originals[i]) && Held(es, before[i], tier, 0);
    if HasTier(src.originals[i], tier) {
      TurnsTurned(src, before, i, tier, Limit(src, before, maxChars, share), |es|);
      Later(es, after[i], tier, |es|, tier + 1, 0);
    } else {
      Later(es, after[i], tier, 0, tier + 1, 0);
    }
    NextMeeting(src, before, after, i, tier);
  }

  lemma {:induction false} TierProgress(src: Packer, retained: seq<seq<Evidence>>, tier: nat, maxChars: int, n: nat)
    requires MeetingsValid(src.originals) && n <= |src.originals| && Packing(src.originals, retained, tier)
    ensures Progress(src, TierTurns(src, retained, tier, maxChars, n), n, tier)
  {
    if n > 0 {
      TierProgress(src, retained, tier, maxChars, n - 1);
      TurnProgress(src, TierTurns(src, retained, tier, maxChars, n - 1), n - 1, tier, maxChars, TierShare(src, retained, tier, maxChars));
    }
  }

  lemma {:induction false} TiersPacked(src: Packer, maxChars: int, tier: nat)
    requires MeetingsValid(src.originals)
    ensures Packing(src.originals, Tiers(src, maxChars, tier), tier)
  {
    if tier > 0 {
      TiersPacked(src, maxChars, tier - 1);
      TierProgress(src, Tiers(src, maxChars, tier - 1), tier - 1, maxChars, |src.originals|);
    }
  }

  /** Metadata is packed before anything else of any meeting, and what quotes a body after everything else. */
  lemma TiersInOrder(src: Packer, maxChars: int, i: nat, e: Evidence)
    requires MeetingsValid(src.originals) && i < |src.originals|
    ensures e in Tiers(src, maxChars, 1)[i] ==> e.kind.MetadataItem?
    ensures e in Tiers(src, maxChars, 2)[i] ==> !e.Excerpt()
    ensures Tiers(src, maxChars, 0)[i] == []
  {
    TiersPacked(src, maxChars, 1);
    TiersPacked(src, maxChars, 2);
    TierOf(src.originals[i].outcome.evidence, Tiers(src, maxChars, 1)[i], 1, e);
    TierOf(src.originals[i].outcome.evidence, Tiers(src, maxChars, 2)[i], 2, e);
  }

  lemma TierOf(es: seq<Evidence>, items: seq<Evidence>, tier: nat, e: Evidence)
    requires Held(es, items, tier, 0)
    ensures e in items ==> Tier(e.kind) < tier
  {
    if e in items {
      var j :| 0 <= j < |es| && Retains(es[j], e) && Before(es, j, tier, 0);
      RetainsKeeps(es[j], e);
    }
  }

  /** The turn of meeting `i` in a tier; a meeting without evidence in the tier has nothing to pack. */
  method PackTurn(src: Packer, retained: seq<seq<Evidence>>, i: nat, tier: nat, maxChars: int, share: nat) returns (next: seq<seq<Evidence>>)
    requires MeetingsValid(src.originals) && i < |src.originals| && Progress(src, retained, i, tier) && src.chars(retained) <= maxChars
    ensures next == Turn(src, retained, i, tier, maxChars, share)
    ensures Progress(src, next, i + 1, tier) && src.chars(next) <= maxChars && src.chars(next) <= src.chars(retained) + share
  {
    next := retained;
    if HasTier(src.originals[i], tier) {
      next := PackMeeting(src, retained, i, tier, maxChars, share);
    } else {
      Later(src.originals[i].outcome.evidence, next[i], tier, 0, tier + 1, 0);
    }
    NextMeeting(src, retained, next, i, tier);
  }

  /** One tier: what is left of the package is shared equally by the meetings that have evidence in it. */
  method PackTier(src: Packer, retained: seq<seq<Evidence>>, tier: nat, maxChars: int) returns (next: seq<seq<Evidence>>)
    requires MeetingsValid(src.originals) && Packing(src.originals, retained, tier) && src.chars(retained) <= maxChars
    ensures next == TierTurns(src, retained, tier, maxChars, |src.originals|)
    ensures Packing(src.originals, next, tier + 1) && src.chars(next) <= maxChars
  {
    var share := TierShare(src, retained, tier, maxChars);
    next := retained;
    for i := 0 to |src.originals|
      invariant next == TierTurns(src, retained, tier, maxChars, i)
      invariant Progress(src, next, i, tier) && src.chars(next) <= maxChars
    {
      next := PackTurn(src, next, i, tier, maxChars, share);
    }
  }

  function Insert(e: Evidence, es: seq<Evidence>): seq<Evidence> {
    if es == [] then [e]
    else if Ledgers.NumberOf(e) < Ledgers.NumberOf(es[|es| - 1]) then Insert(e, es[..|es| - 1]) + [es[|es| - 1]]
    else es + [e]
  }

  /** The items in the order of their numbers. */
  function Sorted(es: seq<Evidence>): seq<Evidence> {
    if es == [] then [] else Insert(es[|es| - 1], Sorted(es[..|es| - 1]))
  }

  predicate InOrder(es: seq<Evidence>) { forall i, j | 0 <= i < j < |es| :: Ledgers.NumberOf(es[i]) <= Ledgers.NumberOf(es[j]) }

  lemma {:induction false} InsertPermutes(e: Evidence, es: seq<Evidence>)
    ensures multiset(Insert(e, es)) == multiset(es + [e])
  {
    if es != [] {
      var front, last := es[..|es| - 1], es[|es| - 1];
      InsertPermutes(e, front);
      assert multiset(es) == multiset(front) + multiset{last} by { assert es == front + [last]; }
    }
  }

  lemma {:induction false} SortedPermutes(es: seq<Evidence>)
    ensures multiset(Sorted(es)) == multiset(es)
  {
    if es != [] {
      var front, last := es[..|es| - 1], es[|es| - 1];
      SortedPermutes(front);
      InsertPermutes(last, Sorted(front));
      assert es == front + [last];
    }
  }

  lemma {:induction false} InsertInOrder(e: Evidence, es: seq<Evidence>)
    requires InOrder(es)
    ensures InOrder(Insert(e, es))
  {
    if es != [] {
      var front, last := es[..|es| - 1], es[|es| - 1];
      if Ledgers.NumberOf(e) < Ledgers.NumberOf(last) {
        InsertInOrder(e, front);
        InsertPermutes(e, front);
        Permuted(Insert(e, front), front + [e]);
        forall k | 0 <= k < |Insert(e, front)| ensures Ledgers.NumberOf(Insert(e, front)[k]) <= Ledgers.NumberOf(last) {
          assert Insert(e, front)[k] in front + [e];
        }
      }
    }
  }

  lemma {:induction false} SortedInOrder(es: seq<Evidence>)
    ensures InOrder(Sorted(es))
  {
    if es != [] {
      SortedInOrder(es[..|es| - 1]);
      InsertInOrder(es[|es| - 1], Sorted(es[..|es| - 1]));
    }
  }

  /** Permutations have the same elements, counts and lengths. */
  lemma Permuted<T>(a: seq<T>, b: seq<T>)
    requires multiset(a) == multiset(b)
    ensures |a| == |b| && forall e :: e in a <==> e in b
  {
    assert |multiset(a)| == |multiset(b)|;
    forall e ensures e in a <==> e in b {
      assert (e in a <==> e in multiset(a)) && (e in b <==> e in multiset(b));
    }
  }

  lemma {:induction false} CountWithout<T>(b: seq<T>, k: nat, p: T -> bool)
    requires k < |b|
    ensures CountIf(b[..k] + b[k + 1..], p) + (if p(b[k]) then 1 else 0) == CountIf(b, p)
    decreases |b|
  {
    var front, rest := b[..|b| - 1], b[..k] + b[k + 1..];
    if k < |front| {
      CountWithout(front, k, p);
      assert rest[..|rest| - 1] == front[..k] + front[k + 1..] && rest[|rest| - 1] == b[|b| - 1];
    } else {
      assert rest == front;
    }
  }

  lemma MultisetWithout<T>(b: seq<T>, k: nat)
    requires k < |b|
    ensures multiset(b[..k] + b[k + 1..]) == multiset(b) - multiset{b[k]}
  {
    assert b == b[..k] + [b[k]] + b[k + 1..];
  }

  lemma MultisetFront<T>(a: seq<T>)
    requires a != []
    ensures multiset(a[..|a| - 1]) == multiset(a) - multiset{a[|a| - 1]}
  {
    assert a == a[..|a| - 1] + [a[|a| - 1]];
  }

  /** Where a permutation has the last element. */
  lemma PlaceInPermutation<T>(a: seq<T>, b: seq<T>) returns (k: nat)
    requires multiset(a) == multiset(b) && a != []
    ensures k < |b| && b[k] == a[|a| - 1] && multiset(a[..|a| - 1]) == multiset(b[..k] + b[k + 1..])
  {
    Permuted(a, b);
    assert a[|a| - 1] in b;
    k :| 0 <= k < |b| && b[k] == a[|a| - 1];
    MultisetFront(a);
    MultisetWithout(b, k);
  }

  lemma {:induction false} CountPermuted<T>(a: seq<T>, b: seq<T>, p: T -> bool)
    requires multiset(a) == multiset(b)
    ensures CountIf(a, p) == CountIf(b, p)
    decreases |a|
  {
    Permuted(a, b);
    if a != [] {
      var k := PlaceInPermutation(a, b);
      CountWithout(b, k, p);
      CountPermuted(a[..|a| - 1], b[..k] + b[k + 1..], p);
    }
  }

  lemma {:induction false} CitedIds(number: nat, es: seq<Evidence>, id: Id)
    ensures id in Citations(number, es) <==> Ledgers.HasId(es, id)
  {
    if es != [] {
      CitedIds(number, es[..|es| - 1], id);
      Ledgers.HasIdAppend(es[..|es| - 1], [es[|es| - 1]], id);
      FrontAndLast(es);
    }
  }

  lemma DistinctLast(es: seq<Evidence>, e: Evidence)
    requires es != [] && Ledgers.DistinctIds(es) && e in es[..|es| - 1]
    ensures e.id != es[|es| - 1].id
  {
    var k :| 0 <= k < |es| - 1 && es[k] == e;
  }

  lemma {:induction false} CitedEvidence(number: nat, es: seq<Evidence>, e: Evidence)
    requires Ledgers.DistinctIds(es) && e in es
    ensures e.id in Citations(number, es) && Citations(number, es)[e.id] == CitationOf(number, e)
  {
    FrontAndLast(es);
    if e != es[|es| - 1] {
      CitedEvidence(number, es[..|es| - 1], e);
      DistinctLast(es, e);
    }
  }

  lemma CitationsAre(number: nat, es: seq<Evidence>)
    requires Ledgers.DistinctIds(es)
    ensures forall id :: id in Citations(number, es) <==> Ledgers.HasId(es, id)
    ensures forall e | e in es :: e.id in Citations(number, es) && Citations(number, es)[e.id] == CitationOf(number, e)
  {
    forall id ensures id in Citations(number, es) <==> Ledgers.HasId(es, id) { CitedIds(number, es, id); }
    forall e | e in es ensures e.id in Citations(number, es) && Citations(number, es)[e.id] == CitationOf(number, e) { CitedEvidence(number, es, e); }
  }

  /** The last metadata item of a list: the one that [M1] stands for. */
  function LastMetadata(es: seq<Evidence>): (r: Option<Evidence>)
    ensures r.Some? ==> r.value in es && r.value.kind.MetadataItem?
    ensures r.None? ==> forall e | e in es :: !e.kind.MetadataItem?
  {
    if es == [] then None
    else if es[|es| - 1].kind.MetadataItem? then Some(es[|es| - 1])
    else LastMetadata(es[..|es| - 1])
  }

  lemma {:induction false} LastIsGreatest(es: seq<Evidence>, e: Evidence)
    requires Ledgers.MetadataInOrder(es) && e in es && e.kind.MetadataItem?
    ensures LastMetadata(es).Some? && Ledgers.NumberOf(e) <= Ledgers.NumberOf(LastMetadata(es).value)
  {
    var k :| 0 <= k < |es| && es[k] == e;
    if !es[|es| - 1].kind.MetadataItem? {
      assert e == es[..|es| - 1][k];
      LastIsGreatest(es[..|es| - 1], e);
    }
  }

  lemma {:induction false} SuppliedKeys(number: nat, es: seq<Evidence>)
    ensures forall c :: c in Supplied(number, es) <==> exists e :: e in es && ExactCitation(number, e) == c
  {
    if es != [] {
      var front, last := es[..|es| - 1], es[|es| - 1];
      SuppliedKeys(number, front);
      assert es == front + [last];
    }
  }

  lemma {:induction false} SuppliedAt(number: nat, es: seq<Evidence>, e: Evidence)
    requires Ledgers.DistinctIds(es) && e in es
    ensures ExactCitation(number, e) in Supplied(number, es)
    ensures Supplied(number, es)[ExactCitation(number, e)] == CitationOf(number, if e.kind.MetadataItem? then LastMetadata(es).value else e)
  {
    var front, last := es[..|es| - 1], es[|es| - 1];
    if e != last {
      var k :| 0 <= k < |es| && es[k] == e;
      assert front[k] == e && e.id != last.id;
      SuppliedAt(number, front, e);
    }
  }

  lemma {:induction false} InsertDistinct(e: Evidence, es: seq<Evidence>)
    requires Ledgers.DistinctIds(es) && forall x | x in es :: x.id != e.id
    ensures Ledgers.DistinctIds(Insert(e, es))
  {
    if es != [] && Ledgers.NumberOf(e) < Ledgers.NumberOf(es[|es| - 1]) {
      var front, last := es[..|es| - 1], es[|es| - 1];
      InsertDistinct(e, front);
      InsertPermutes(e, front);
      Permuted(Insert(e, front), front + [e]);
      forall k | 0 <= k < |Insert(e, front)| ensures Insert(e, front)[k].id != last.id {
        assert Insert(e, front)[k] in front + [e];
      }
    }
  }

  lemma {:induction false} SortedDistinct(es: seq<Evidence>)
    requires Ledgers.DistinctIds(es)
    ensures Ledgers.DistinctIds(Sorted(es))
  {
    if es != [] {
      var front, last := es[..|es| - 1], es[|es| - 1];
      SortedDistinct(front);
      SortedPermutes(front);
      Permuted(Sorted(front), front);
      forall x | x in Sorted(front) ensures x.id != last.id {
        var k :| 0 <= k < |front| && front[k] == x;
        assert es[k] == x;
      }
      InsertDistinct(last, Sorted(front));
    }
  }

  /** The evidence of one meeting: distinct aliases of that meeting. */
  ghost predicate Aliased(number: nat, es: seq<Evidence>) {
    Ledgers.DistinctIds(es) && forall e | e in es :: e.id.Alias? && e.id.meeting == number
  }

  lemma SortedAliased(number: nat, es: seq<Evidence>)
    requires Aliased(number, es)
    ensures Aliased(number, Sorted(es)) && Ledgers.MetadataInOrder(Sorted(es)) && multiset(Sorted(es)) == multiset(es)
  {
    SortedDistinct(es);
    SortedPermutes(es);
    Permuted(Sorted(es), es);
    SortedInOrder(es);
    var t := Sorted(es);
    forall i, j | 0 <= i < j < |t| ensures Ledgers.NumberOf(t[i]) < Ledgers.NumberOf(t[j]) {
      assert t[i] in t && t[j] in t;
    }
  }

  /** Two lists in which metadata is in order and the elements are the same have the same last metadata item. */
  lemma SameLastMetadata(number: nat, a: seq<Evidence>, b: seq<Evidence>)
    requires Aliased(number, a) && Ledgers.MetadataInOrder(a) && Ledgers.MetadataInOrder(b) && forall e :: e in a <==> e in b
    ensures LastMetadata(a) == LastMetadata(b)
  {
    var x, y := LastMetadata(a), LastMetadata(b);
    if x.Some? { LastIsGreatest(b, x.value); }
    if y.Some? {
      LastIsGreatest(a, y.value);
      Ledgers.SameId(a, x.value, y.value);
    }
  }

  /** Sorting changes neither kind of citation. */
  lemma SortedCitations(number: nat, es: seq<Evidence>)
    requires Aliased(number, es) && Ledgers.MetadataInOrder(es)
    ensures Citations(number, Sorted(es)) == Citations(number, es)
  {
    SortedAliased(number, es);
    var t := Sorted(es);
    Permuted(t, es);
    CitationsAre(number, es);
    CitationsAre(number, t);
    forall id ensures id in Citations(number, t) <==> id in Citations(number, es) {
      Ledgers.HasIdIn(t, id);
      Ledgers.HasIdIn(es, id);
    }
    forall id | id in Citations(number, t) ensures Citations(number, t)[id] == Citations(number, es)[id] {
      Ledgers.HasIdIn(t, id);
      var e :| e in t && e.id == id;
    }
  }

  lemma SortedSupplied(number: nat, es: seq<Evidence>)
    requires Aliased(number, es) && Ledgers.MetadataInOrder(es)
    ensures Supplied(number, Sorted(es)) == Supplied(number, es)
  {
    SortedAliased(number, es);
    var t := Sorted(es);
    Permuted(t, es);
    SameLastMetadata(number, es, t);
    SuppliedKeys(number, es);
    SuppliedKeys(number, t);
    forall c | c in Supplied(number, t) ensures c in Supplied(number, es) && Supplied(number, t)[c] == Supplied(number, es)[c] {
      var e :| e in t && ExactCitation(number, e) == c;
      SuppliedAt(number, t, e);
      SuppliedAt(number, es, e);
    }
    forall c | c in Supplied(number, es) ensures c in Supplied(number, t) {
      var e :| e in es && ExactCitation(number, e) == c;
      assert e in t;
    }
  }

  function SortAll(retained: seq<seq<Evidence>>): seq<seq<Evidence>> {
    seq(|retained|, i requires 0 <= i < |retained| => Sorted(retained[i]))
  }

  lemma SortedCounts(o: Outcome, items: seq<Evidence>)
    ensures |Sorted(items)| == |items| && Shortened(o.evidence, Sorted(items)) == Shortened(o.evidence, items) && Usable(o, Sorted(items)) == Usable(o, items)
  {
    SortedPermutes(items);
    Permuted(Sorted(items), items);
    CountPermuted(Sorted(items), items, (e: Evidence) => |e.text| < OriginalLength(o.evidence, e.id));
    CountPermuted(Sorted(items), items, (e: Evidence) => Supports(e, o.coverage.purpose, o.coverage.bodyRequired));
  }

  lemma PackOneSorted(m: Packed, items: seq<Evidence>)
    ensures PackOne(m, Sorted(items)) == Packed(m.number, PackOne(m, items).outcome.(evidence := Sorted(items)))
  {
    SortedCounts(m.outcome, items);
  }

  /** Two packages' meetings are the same but for the order of their evidence. */
  predicate SameButEvidence(m: Packed, n: Packed) {
    n == Packed(m.number, m.outcome.(evidence := n.outcome.evidence))
  }

  lemma {:induction false} CountSame(ms: seq<Packed>, ns: seq<Packed>, p: Packed -> bool)
    requires |ms| == |ns| && forall i | 0 <= i < |ms| :: p(ms[i]) == p(ns[i])
    ensures CountIf(ms, p) == CountIf(ns, p)
  {
    if ms != [] {
      CountSame(ms[..|ms| - 1], ns[..|ns| - 1], p);
    }
  }

  lemma CountsSame(ms: seq<Packed>, ns: seq<Packed>, admitted: nat, omitted: nat)
    requires |ms| == |ns| && forall i | 0 <= i < |ms| :: SameButEvidence(ms[i], ns[i])
    ensures CountsOf(ms, admitted, omitted) == CountsOf(ns, admitted, omitted)
  {
    CountSame(ms, ns, (m: Packed) => m.outcome.state.Read?);
    CountSame(ms, ns, (m: Packed) => m.outcome.state.NotRead?);
    CountSame(ms, ns, (m: Packed) => !m.outcome.state.MetadataOnly? && (!m.outcome.state.NotRead? || Interrupted(m)));
    CountSame(ms, ns, (m: Packed) => m.outcome.coverage.bodyAttempted);
    CountSame(ms, ns, (m: Packed) => !m.outcome.coverage.support.NoSupport?);
    CountSame(ms, ns, (m: Packed) => Failed(m));
  }

  lemma {:induction false} AllSame(ms: seq<Packed>, ns: seq<Packed>)
    requires |ms| == |ns| && forall i | 0 <= i < |ms| ::
      && ms[i].number == ns[i].number
      && Citations(ms[i].number, ms[i].outcome.evidence) == Citations(ns[i].number, ns[i].outcome.evidence)
      && Supplied(ms[i].number, ms[i].outcome.evidence) == Supplied(ns[i].number, ns[i].outcome.evidence)
    ensures AllCitations(ms) == AllCitations(ns) && AllSupplied(ms) == AllSupplied(ns)
  {
    if ms != [] {
      AllSame(ms[..|ms| - 1], ns[..|ns| - 1]);
    }
  }

  /** What has been packed of a meeting carries distinct aliases of that meeting. */
  lemma HeldAliased(m: Packed, items: seq<Evidence>, tier: nat, pos: nat)
    requires MeetingValid(m) && Held(m.outcome.evidence, items, tier, pos)
    ensures Aliased(m.number, items)
  {
    forall e | e in items ensures e.id.Alias? && e.id.meeting == m.number {
      var j :| 0 <= j < |m.outcome.evidence| && Retains(m.outcome.evidence[j], e) && Before(m.outcome.evidence, j, tier, pos);
      RetainsKeeps(m.outcome.evidence[j], e);
    }
  }

  /** Two packed meetings that count the same in a package's length. */
  ghost predicate SameWeight(m: Packed, n: Packed) {
    && SameButEvidence(m, n) && multiset(m.outcome.evidence) == multiset(n.outcome.evidence)
    && Citations(m.number, m.outcome.evidence) == Citations(n.number, n.outcome.evidence)
    && Supplied(m.number, m.outcome.evidence) == Supplied(n.number, n.outcome.evidence)
  }

  lemma SortedWeight(m: Packed, items: seq<Evidence>, tier: nat)
    requires MeetingValid(m) && Held(m.outcome.evidence, items, tier, 0)
    ensures SameWeight(PackOne(m, items), PackOne(m, Sorted(items)))
  {
    PackOneSorted(m, items);
    HeldAliased(m, items, tier, 0);
    SortedAliased(m.number, items);
    SortedCitations(m.number, items);
    SortedSupplied(m.number, items);
  }

  lemma SameWeights(p: Package, q: Package, admitted: nat, omitted: nat)
    requires |p.meetings| == |q.meetings| && forall i | 0 <= i < |p.meetings| :: SameWeight(p.meetings[i], q.meetings[i])
    requires p == Package(p.meetings, AllCitations(p.meetings), AllSupplied(p.meetings), p.receipts, CountsOf(p.meetings, admitted, omitted), false)
    requires q == Package(q.meetings, AllCitations(q.meetings), AllSupplied(q.meetings), p.receipts, CountsOf(q.meetings, admitted, omitted), false)
    ensures Weigh(p) == Weigh(q)
  {
    CountsSame(p.meetings, q.meetings, admitted, omitted);
    AllSame(p.meetings, q.meetings);
    assert Weigh(p).meetings == Weigh(q).meetings;
  }

  /** Putting the retained evidence back into the order of its numbers does not change the length of the package. */
  lemma SortKeepsLength(src: Source, retained: seq<seq<Evidence>>, tier: nat)
    requires MeetingsValid(src.originals) && Packing(src.originals, retained, tier)
    ensures src.Chars(SortAll(retained)) == src.Chars(retained)
  {
    var p, q := src.Make(retained), src.Make(SortAll(retained));
    forall i | 0 <= i < |retained| ensures SameWeight(p.meetings[i], q.meetings[i]) {
      SortedWeight(src.originals[i], retained[i], tier);
    }
    SameWeights(p, q, |src.originals|, src.omittedByDiscovery);
  }

  function Tokens(chars: nat): nat { (chars + 3) / 4 }

  function MaxChars(wanted: Option<nat>, tokenBudget: nat, contextTokens: nat): nat {
    Max(0, Min(Min(PACKAGE_CHARS, if wanted.Some? then wanted.value else PACKAGE_CHARS), (tokenBudget - contextTokens) * 4))
  }

  /** What is retained of a meeting in the end: different pieces of its evidence, in order, whole or cut as allowed. */
  ghost predicate Final(m: Packed, items: seq<Evidence>) {
    && (forall e | e in items :: exists j :: 0 <= j < |m.outcome.evidence| && Retains(m.outcome.evidence[j], e))
    && Aliased(m.number, items) && InOrder(items)
  }

  ghost predicate PackageOf(src: Source, p: Package, items: seq<seq<Evidence>>) {
    |items| == |src.originals| && p == src.Make(items) && forall i {:trigger items[i]} | 0 <= i < |items| :: Final(src.originals[i], items[i])
  }

  lemma SortedIsFinal(src: Source, retained: seq<seq<Evidence>>, tier: nat)
    requires MeetingsValid(src.originals) && Packing(src.originals, retained, tier)
    ensures PackageOf(src, src.Make(SortAll(retained)), SortAll(retained))
  {
    var sorted := SortAll(retained);
    forall i | 0 <= i < |sorted| ensures Final(src.originals[i], sorted[i]) {
      var m := src.originals[i];
      HeldAliased(m, retained[i], tier, 0);
      SortedAliased(m.number, retained[i]);
      SortedInOrder(retained[i]);
      Permuted(sorted[i], retained[i]);
      forall e | e in sorted[i] ensures exists j :: 0 <= j < |m.outcome.evidence| && Retains(m.outcome.evidence[j], e) {
        var j :| 0 <= j < |m.outcome.evidence| && Retains(m.outcome.evidence[j], e) && Before(m.outcome.evidence, j, tier, 0);
      }
    }
  }

  /**
    Every piece of evidence is retained in the form chosen at its turn, and whole exactly when all the
    meetings of its tier could have grown by as much within the room the tier began with.
   */
  ghost predicate Allotted(src: Packer, maxChars: int, items: seq<seq<Evidence>>) {
    && |items| == |src.originals|
    && (forall i, p, x: Evidence | 0 <= i < |items| && 0 <= p && PieceOf(src, i, p, x) ::
          x in items[i] <==> FormAt(src, maxChars, i, p) == Some(x))
    && forall i, p | 0 <= i < |items| && 0 <= p < |src.originals[i].outcome.evidence| ::
         src.originals[i].outcome.evidence[p] in items[i] <==> Affordable(src, maxChars, i, p, src.originals[i].outcome.evidence[p])
  }

  lemma SortedHas(retained: seq<seq<Evidence>>, i: nat, x: Evidence)
    requires i < |retained|
    ensures x in SortAll(retained)[i] <==> x in retained[i]
  {
    SortedPermutes(retained[i]);
    Permuted(Sorted(retained[i]), retained[i]);
  }

  lemma TiersAreAllotted(src: Packer, maxChars: int)
    requires MeetingsValid(src.originals) && src.chars(Nothing(|src.originals|)) <= maxChars
    ensures Allotted(src, maxChars, SortAll(Tiers(src, maxChars, 3)))
  {
    var retained := Tiers(src, maxChars, 3);
    var items := SortAll(retained);
    forall i, p, x: Evidence | 0 <= i < |items| && 0 <= p && PieceOf(src, i, p, x)
      ensures x in items[i] <==> FormAt(src, maxChars, i, p) == Some(x)
    {
      RetainedAtItsTurn(src, maxChars, 3, i, p, x);
      SortedHas(retained, i, x);
    }
    forall i, p | 0 <= i < |items| && 0 <= p < |src.originals[i].outcome.evidence|
      ensures src.originals[i].outcome.evidence[p] in items[i] <==> Affordable(src, maxChars, i, p, src.originals[i].outcome.evidence[p])
    {
      WholeIff(src, maxChars, i, p);
      SortedHas(retained, i, src.originals[i].outcome.evidence[p]);
    }
  }

  /** The package, its serialized length (nothing is supplied when even the limited package is too long), and the token estimate. */
  datatype PackedEvidence = PackedEvidence(package: Package, chars: nat, estimatedTokens: nat)

  method PackTiers(src: Packer, maxChars: nat) returns (retained: seq<seq<Evidence>>)
    requires MeetingsValid(src.originals) && src.chars(Nothing(|src.originals|)) <= maxChars
    ensures retained == Tiers(src, maxChars, 3)
    ensures Packing(src.originals, retained, 3) && src.chars(retained) <= maxChars
  {
    retained := Nothing(|src.originals|);
    for tier := 0 to 3
      invariant retained == Tiers(src, maxChars, tier)
      invariant Packing(src.originals, retained, tier) && src.chars(retained) <= maxChars
    {
      retained := PackTier(src, retained, tier, maxChars);
    }
  }

  method SortEach(retained: seq<seq<Evidence>>) returns (sorted: seq<seq<Evidence>>)
    ensures sorted == SortAll(retained)
  {
    sorted := [];
    for i := 0 to |retained|
      invariant sorted == SortAll(retained)[..i]
    {
      sorted := sorted + [Sorted(retained[i])];
    }
  }

  /**
    The package never exceeds its characters. Either the identities alone do not fit, and it is the
    limited one; or it holds every meeting, with what Final allows of its evidence.
   */
  method PackMeetingEvidence(src: Source, tokenBudget: nat, contextChars: nat, wanted: Option<nat>) returns (r: PackedEvidence, ghost items: seq<seq<Evidence>>)
    requires MeetingsValid(src.originals)
    ensures var maxChars := MaxChars(wanted, tokenBudget, Tokens(contextChars));
      && r.chars <= maxChars
      && (r.package.limited <==> src.Chars(Nothing(|src.originals|)) > maxChars)
      && (r.package.limited ==> r.package.meetings == [] && r.package.citations == map[] && r.package.supplied == map[] && r.package.receipts == src.receipts)
      && (r.package.limited ==> r.package.coverage == Counts(|src.originals|, 0, 0, 0, 0, 0, 0, 0, src.omittedByDiscovery + |src.originals|))
      && (r.package.limited ==> r.package == src.Bare() && r.chars == if src.Length(src.Bare()) <= maxChars then src.Length(src.Bare()) else 0)
      && (!r.package.limited ==> PackageOf(src, r.package, items) && r.chars == src.Length(r.package))
      && (!r.package.limited ==> items == SortAll(Tiers(src.AsPacker(), maxChars, 3)) && Allotted(src.AsPacker(), maxChars, items))
    ensures r.estimatedTokens == Tokens(contextChars) + Tokens(r.chars)
  {
    var maxChars := MaxChars(wanted, tokenBudget, Tokens(contextChars));
    items := [];
    if src.Chars(Nothing(|src.originals|)) > maxChars {
      var chars := src.Length(src.Bare());
      if chars > maxChars {
        chars := 0;
      }
      return PackedEvidence(src.Bare(), chars, Tokens(contextChars) + Tokens(chars)), [];
    }
    var retained := PackTiers(src.AsPacker(), maxChars);
    var sorted := SortEach(retained);
    SortKeepsLength(src, retained, 3);
    SortedIsFinal(src, retained, 3);
    TiersAreAllotted(src.AsPacker(), maxChars);
    items := sorted;
    var package := src.Make(sorted);
    r := PackedEvidence(package, src.Length(package), Tokens(contextChars) + Tokens(src.Length(package)));
  }

  /** Tokens are characters by four, rounded up. */
  lemma TokensAreFours(chars: nat)
    ensures chars <= 4 * Tokens(chars) < chars + 4
  {
  }

  /** What a package may have: at most 48000 characters, at most what is wanted, and no more tokens than the context leaves. */
  lemma MaxCharsIff(wanted: Option<nat>, tokenBudget: nat, contextTokens: nat, chars: nat)
    ensures chars <= MaxChars(wanted, tokenBudget, contextTokens) <==>
              chars == 0 || (chars <= PACKAGE_CHARS && (wanted.Some? ==> chars <= wanted.value) && contextTokens + Tokens(chars) <= tokenBudget)
  {
    TokensAreFours(chars);
  }

  /** The estimate is within the budget exactly when the context alone is; a package with meetings in it implies that. */
  lemma TokensFit(wanted: Option<nat>, tokenBudget: nat, contextTokens: nat, chars: nat)
    requires chars <= MaxChars(wanted, tokenBudget, contextTokens)
    ensures contextTokens + Tokens(chars) <= tokenBudget <==> contextTokens <= tokenBudget
    ensures chars >= 2 ==> contextTokens + Tokens(chars) <= tokenBudget
  {
  }

  /** Every meeting's identity and status is in the package, and its counts match what is retained. */
  lemma PackageTells(src: Source, p: Package, items: seq<seq<Evidence>>, i: nat)
    requires PackageOf(src, p, items) && i < |src.originals|
    ensures |p.meetings| == |src.originals| == p.coverage.admitted == p.coverage.included && p.coverage.omitted == src.omittedByDiscovery
    ensures var o, q := src.originals[i].outcome, p.meetings[i].outcome;
      && p.meetings[i].number == src.originals[i].number
      && q.source == o.source && q.ref == o.ref && q.meeting == o.meeting && q.state == o.state && q.body == o.body
      && q.evidence == items[i] && q.coverage.retained == |items[i]| <= |o.evidence|
      && q.coverage.omitted == o.coverage.omitted + (|o.evidence| - |items[i]|) + Shortened(o.evidence, items[i])
      && q.search.retainedMatches <= o.search.retainedMatches
  {
    FinalIsSmaller(src.originals[i], items[i]);
  }

  /** Less of the text of its original is left in the piece. */
  predicate Shorter(originals: seq<Evidence>, e: Evidence) {
    exists j :: 0 <= j < |originals| && originals[j].id == e.id && |e.text| < |originals[j].text|
  }

  lemma {:induction false} OriginalIs(originals: seq<Evidence>, j: nat)
    requires Ledgers.DistinctIds(originals) && j < |originals|
    ensures OriginalLength(originals, originals[j].id) == |originals[j].text|
    decreases |originals|
  {
    if j > 0 {
      assert originals[0].id != originals[j].id && originals[1..][j - 1] == originals[j];
      OriginalIs(originals[1..], j - 1);
    }
  }

  lemma {:induction false} OriginalOfNone(originals: seq<Evidence>, id: Id)
    requires forall j | 0 <= j < |originals| :: originals[j].id != id
    ensures OriginalLength(originals, id) == 0
    decreases |originals|
  {
    if originals != [] {
      OriginalOfNone(originals[1..], id);
    }
  }

  lemma ShorterIff(originals: seq<Evidence>, e: Evidence)
    requires Ledgers.DistinctIds(originals)
    ensures |e.text| < OriginalLength(originals, e.id) <==> Shorter(originals, e)
  {
    if j :| 0 <= j < |originals| && originals[j].id == e.id {
      OriginalIs(originals, j);
    } else {
      OriginalOfNone(originals, e.id);
    }
  }

  lemma CountedPlaces<T>(es: seq<T>, p: T -> bool)
    ensures CountIf(es, p) == |Places(es, p)|
    ensures CountIf(es, p) == 0 <==> forall e | e in es :: !p(e)
  {
    CountIsSize(es, p);
    if CountIf(es, p) == 0 {
      forall e | e in es ensures !p(e) {
        var i: nat :| i < |es| && es[i] == e;
        assert i !in Places(es, p);
      }
    } else {
      var i :| i in Places(es, p);
      assert es[i] in es;
    }
  }

  lemma ShortenedIs(originals: seq<Evidence>, items: seq<Evidence>)
    requires Ledgers.DistinctIds(originals)
    ensures Shortened(originals, items) == |set k: nat | k < |items| && Shorter(originals, items[k])|
    ensures Shortened(originals, items) == 0 <==> forall e | e in items :: !Shorter(originals, e)
  {
    var p := (e: Evidence) => |e.text| < OriginalLength(originals, e.id);
    CountedPlaces(items, (e: Evidence) => |e.text| < OriginalLength(originals, e.id));
    forall e ensures p(e) == Shorter(originals, e) { ShorterIff(originals, e); }
    assert Places(items, p) == set k: nat | k < |items| && Shorter(originals, items[k]);
  }

  lemma UsableIs(o: Outcome, items: seq<Evidence>)
    ensures Usable(o, items) == |set k: nat | k < |items| && Supports(items[k], o.coverage.purpose, o.coverage.bodyRequired)|
    ensures Usable(o, items) == 0 <==> forall e | e in items :: !Supports(e, o.coverage.purpose, o.coverage.bodyRequired)
  {
    var p := (e: Evidence) => Supports(e, o.coverage.purpose, o.coverage.bodyRequired);
    CountedPlaces(items, (e: Evidence) => Supports(e, o.coverage.purpose, o.coverage.bodyRequired));
    assert Places(items, p) == set k: nat | k < |items| && Supports(items[k], o.coverage.purpose, o.coverage.bodyRequired);
  }

  lemma {:induction false} DistinctIs(xs: seq<string>)
    ensures (forall x :: x in Distinct(xs) <==> x in xs) && forall i, j | 0 <= i < j < |Distinct(xs)| :: Distinct(xs)[i] != Distinct(xs)[j]
  {
    if xs != [] {
      DistinctIs(xs[..|xs| - 1]);
      FrontAndLast(xs);
    }
  }

  /** The packing has taken something from the meeting: a piece, or a part of one. */
  ghost predicate Limits(o: Outcome, items: seq<Evidence>) { |items| < |o.evidence| || exists e :: e in items && Shorter(o.evidence, e) }

  /**
    What the package says about the support of a meeting. It has none exactly when it had none or no
    retained piece serves its purpose; otherwise it keeps what it had, but is limited where the packing
    took something from a sufficient one, which is then given as a reason.
   */
  lemma SupportTells(src: Source, p: Package, items: seq<seq<Evidence>>, i: nat)
    requires PackageOf(src, p, items) && MeetingsValid(src.originals) && i < |src.originals|
    ensures var o, q := src.originals[i].outcome, p.meetings[i].outcome;
      var serves := exists e :: e in items[i] && Supports(e, o.coverage.purpose, o.coverage.bodyRequired);
      && (q.coverage.support.NoSupport? <==> o.coverage.support.NoSupport? || !serves)
      && (q.coverage.support.Sufficient? <==> o.coverage.support.Sufficient? && serves && !Limits(o, items[i]))
      && (forall r :: r in q.coverage.reasons <==> r in o.coverage.reasons || (Limits(o, items[i]) && r == "package_budget"))
  {
    var m := src.originals[i];
    assert MeetingValid(m) && Final(m, items[i]);
    ShortenedIs(m.outcome.evidence, items[i]);
    UsableIs(m.outcome, items[i]);
    FinalIsSmaller(m, items[i]);
    DistinctIs(m.outcome.coverage.reasons + if Limits(m.outcome, items[i]) then ["package_budget"] else []);
  }

  /** The counts of one meeting: pieces left out or shortened count as omitted, pieces that serve its purpose as matches. */
  lemma CountsTell(src: Source, p: Package, items: seq<seq<Evidence>>, i: nat)
    requires PackageOf(src, p, items) && MeetingsValid(src.originals) && i < |src.originals|
    ensures var o, q := src.originals[i].outcome, p.meetings[i].outcome;
      && q.coverage.omitted == o.coverage.omitted + (|o.evidence| - |items[i]|) + |set k: nat | k < |items[i]| && Shorter(o.evidence, items[i][k])|
      && q.search.retainedMatches ==
           if o.search.state.SearchNotRequested? then 0
           else Min(o.search.retainedMatches,
                    |set k: nat | k < |items[i]| && Supports(items[i][k], o.coverage.purpose, o.coverage.bodyRequired)|)
  {
    var m := src.originals[i];
    assert MeetingValid(m) && Final(m, items[i]);
    ShortenedIs(m.outcome.evidence, items[i]);
    UsableIs(m.outcome, items[i]);
    FinalIsSmaller(m, items[i]);
  }

  lemma CountedMeetings(ms: seq<Packed>, p: Packed -> bool, all: set<nat>)
    requires forall k: nat :: k in all <==> k < |ms| && p(ms[k])
    ensures CountIf(ms, p) == |all|
  {
    CountIsSize(ms, p);
    assert Places(ms, p) == all;
  }

  /** The meeting could not be read: it was not found, refused, unavailable or interrupted, or its body was not to be had. */
  predicate CouldNotBeRead(o: Outcome) {
    || o.state.MeetingNotFound? || o.state.AccessDenied? || o.state.Unavailable?
    || (o.state.NotRead? && exists r :: r in o.coverage.reasons && (r == "unavailable" || r == "contract_mismatch"))
    || o.body.state in {Missing, InvalidJson, UnsupportedShape, SizeLimit, BodyDenied, BodyUnavailable, Timeout, Cancelled}
  }

  lemma FailedIff(m: Packed)
    ensures Failed(m) <==> CouldNotBeRead(m.outcome)
  {
  }

  lemma StatesCounted(ms: seq<Packed>, admitted: nat, omitted: nat)
    ensures CountsOf(ms, admitted, omitted).read == |set k: nat | k < |ms| && ms[k].outcome.state.Read?|
    ensures CountsOf(ms, admitted, omitted).notRead == |set k: nat | k < |ms| && ms[k].outcome.state.NotRead?|
  {
    CountedMeetings(ms, (m: Packed) => m.outcome.state.Read?, set k: nat | k < |ms| && ms[k].outcome.state.Read?);
    CountedMeetings(ms, (m: Packed) => m.outcome.state.NotRead?, set k: nat | k < |ms| && ms[k].outcome.state.NotRead?);
  }

  /** Something was done to retrieve the meeting. */
  predicate WasAttempted(o: Outcome) {
    !o.state.MetadataOnly? && (o.state.NotRead? ==> exists r :: r in o.coverage.reasons && (r == "unavailable" || r == "contract_mismatch"))
  }

  lemma AttemptedIff(m: Packed)
    ensures WasAttempted(m.outcome) <==> !m.outcome.state.MetadataOnly? && (!m.outcome.state.NotRead? || Interrupted(m))
  {
  }

  lemma AttemptsCounted(ms: seq<Packed>, admitted: nat, omitted: nat)
    ensures CountsOf(ms, admitted, omitted).attempted == |set k: nat | k < |ms| && WasAttempted(ms[k].outcome)|
  {
    var all := set k: nat | k < |ms| && WasAttempted(ms[k].outcome);
    forall k: nat ensures k in all <==> k < |ms| && !ms[k].outcome.state.MetadataOnly? && (!ms[k].outcome.state.NotRead? || Interrupted(ms[k])) {
      if k < |ms| { AttemptedIff(ms[k]); }
    }
    CountedMeetings(ms, (m: Packed) => !m.outcome.state.MetadataOnly? && (!m.outcome.state.NotRead? || Interrupted(m)), all);
  }

  lemma CoverageCounted(ms: seq<Packed>, admitted: nat, omitted: nat)
    ensures CountsOf(ms, admitted, omitted).bodyAttempted == |set k: nat | k < |ms| && ms[k].outcome.coverage.bodyAttempted|
    ensures CountsOf(ms, admitted, omitted).usable == |set k: nat | k < |ms| && !ms[k].outcome.coverage.support.NoSupport?|
  {
    CountedMeetings(ms, (m: Packed) => m.outcome.coverage.bodyAttempted, set k: nat | k < |ms| && ms[k].outcome.coverage.bodyAttempted);
    CountedMeetings(ms, (m: Packed) => !m.outcome.coverage.support.NoSupport?, set k: nat | k < |ms| && !ms[k].outcome.coverage.support.NoSupport?);
  }

  lemma FailuresCounted(ms: seq<Packed>, admitted: nat, omitted: nat)
    ensures CountsOf(ms, admitted, omitted).failed == |set k: nat | k < |ms| && CouldNotBeRead(ms[k].outcome)|
  {
    var all := set k: nat | k < |ms| && CouldNotBeRead(ms[k].outcome);
    forall k: nat ensures k in all <==> k < |ms| && Failed(ms[k]) {
      if k < |ms| { FailedIff(ms[k]); }
    }
    CountedMeetings(ms, (m: Packed) => Failed(m), all);
  }

  /** The package's counts are those of the meetings in it. */
  lemma CoverageTells(src: Source, p: Package, items: seq<seq<Evidence>>)
    requires PackageOf(src, p, items)
    ensures p.coverage.read == |set k: nat | k < |p.meetings| && p.meetings[k].outcome.state.Read?|
    ensures p.coverage.notRead == |set k: nat | k < |p.meetings| && p.meetings[k].outcome.state.NotRead?|
    ensures p.coverage.bodyAttempted == |set k: nat | k < |p.meetings| && p.meetings[k].outcome.coverage.bodyAttempted|
    ensures p.coverage.usable == |set k: nat | k < |p.meetings| && !p.meetings[k].outcome.coverage.support.NoSupport?|
    ensures p.coverage.failed == |set k: nat | k < |p.meetings| && CouldNotBeRead(p.meetings[k].outcome)|
    ensures p.coverage.attempted == |set k: nat | k < |p.meetings| && WasAttempted(p.meetings[k].outcome)|
  {
    AttemptsCounted(p.meetings, |src.originals|, src.omittedByDiscovery);
    StatesCounted(p.meetings, |src.originals|, src.omittedByDiscovery);
    CoverageCounted(p.meetings, |src.originals|, src.omittedByDiscovery);
    FailuresCounted(p.meetings, |src.originals|, src.omittedByDiscovery);
  }

  function Ids(es: seq<Evidence>): set<Id> { if es == [] then {} else Ids(es[..|es| - 1]) + {es[|es| - 1].id} }

  lemma {:induction false} IdsAre(es: seq<Evidence>)
    ensures |Ids(es)| <= |es| && forall id :: id in Ids(es) <==> exists e :: e in es && e.id == id
  {
    if es != [] {
      IdsAre(es[..|es| - 1]);
      assert es == es[..|es| - 1] + [es[|es| - 1]];
    }
  }

  lemma {:induction false} DistinctIdsCount(es: seq<Evidence>)
    requires Ledgers.DistinctIds(es)
    ensures |Ids(es)| == |es|
  {
    if es != [] {
      var front, last := es[..|es| - 1], es[|es| - 1];
      DistinctIdsCount(front);
      IdsAre(front);
      forall e | e in front ensures e.id != last.id {
        var k :| 0 <= k < |front| && front[k] == e;
        assert es[k] == e;
      }
    }
  }

  /** Different retained pieces come from different originals. */
  lemma FinalIsSmaller(m: Packed, items: seq<Evidence>)
    requires Final(m, items)
    ensures |items| <= |m.outcome.evidence|
  {
    IdsAre(items);
    IdsAre(m.outcome.evidence);
    DistinctIdsCount(items);
    forall id | id in Ids(items) ensures id in Ids(m.outcome.evidence) {
      var e :| e in items && e.id == id;
      var j :| 0 <= j < |m.outcome.evidence| && Retains(m.outcome.evidence[j], e);
      RetainsKeeps(m.outcome.evidence[j], e);
      assert m.outcome.evidence[j] in m.outcome.evidence;
    }
    SubsetSize(Ids(items), Ids(m.outcome.evidence));
  }

  /** Meetings of different numbers, each with evidence of its own. */
  ghost predicate Separate(ms: seq<Packed>) {
    && (forall i {:trigger ms[i]} | 0 <= i < |ms| :: Aliased(ms[i].number, ms[i].outcome.evidence))
    && (forall i, j | 0 <= i < j < |ms| :: ms[i].number != ms[j].number)
  }

  lemma {:induction false} CitationKeys(ms: seq<Packed>, id: Id)
    requires Separate(ms)
    ensures id in AllCitations(ms) <==> exists i :: 0 <= i < |ms| && Ledgers.HasId(ms[i].outcome.evidence, id)
  {
    if ms != [] {
      var front, last := ms[..|ms| - 1], ms[|ms| - 1];
      CitationKeys(front, id);
      CitationsAre(last.number, last.outcome.evidence);
      if exists i :: 0 <= i < |ms| && Ledgers.HasId(ms[i].outcome.evidence, id) {
        var i :| 0 <= i < |ms| && Ledgers.HasId(ms[i].outcome.evidence, id);
        assert i < |front| ==> Ledgers.HasId(front[i].outcome.evidence, id);
      }
      if exists i :: 0 <= i < |front| && Ledgers.HasId(front[i].outcome.evidence, id) {
        var i :| 0 <= i < |front| && Ledgers.HasId(front[i].outcome.evidence, id);
        assert Ledgers.HasId(ms[i].outcome.evidence, id);
      }
    }
  }

  lemma {:induction false} CitationAt(ms: seq<Packed>, i: nat, e: Evidence)
    requires Separate(ms) && i < |ms| && e in ms[i].outcome.evidence
    ensures e.id in AllCitations(ms) && AllCitations(ms)[e.id] == CitationOf(ms[i].number, e)
  {
    var front, last := ms[..|ms| - 1], ms[|ms| - 1];
    CitationsAre(last.number, last.outcome.evidence);
    if i < |front| {
      CitationAt(front, i, e);
      Ledgers.HasIdIn(last.outcome.evidence, e.id);
      assert Aliased(ms[|ms| - 1].number, last.outcome.evidence) && Aliased(ms[i].number, ms[i].outcome.evidence);
    }
  }

  /** A bracketed citation names its meeting, so no other meeting supplies it. */
  lemma SuppliedBy(number: nat, es: seq<Evidence>, c: Cite)
    requires Aliased(number, es) && c in Supplied(number, es)
    ensures (if c.CiteMeeting? then c.number else if c.id.Alias? then c.id.meeting else 0) == number
    ensures exists e :: e in es && ExactCitation(number, e) == c
  {
    SuppliedKeys(number, es);
  }

  lemma {:induction false} SuppliedOnly(ms: seq<Packed>, c: Cite)
    requires Separate(ms) && c in AllSupplied(ms)
    ensures exists i :: 0 <= i < |ms| && c in Supplied(ms[i].number, ms[i].outcome.evidence)
  {
    var front, last := ms[..|ms| - 1], ms[|ms| - 1];
    if c in Supplied(last.number, last.outcome.evidence) {
      assert ms[|ms| - 1] == last;
    } else {
      SuppliedOnly(front, c);
      var i :| 0 <= i < |front| && c in Supplied(front[i].number, front[i].outcome.evidence);
      assert ms[i] == front[i];
    }
  }

  lemma {:induction false} SuppliedFrom(ms: seq<Packed>, i: nat, c: Cite)
    requires Separate(ms) && i < |ms| && c in Supplied(ms[i].number, ms[i].outcome.evidence)
    ensures c in AllSupplied(ms) && AllSupplied(ms)[c] == Supplied(ms[i].number, ms[i].outcome.evidence)[c]
  {
    var front, last := ms[..|ms| - 1], ms[|ms| - 1];
    if i < |front| {
      SuppliedFrom(front, i, c);
      SuppliedBy(ms[i].number, ms[i].outcome.evidence, c);
      if c in Supplied(last.number, last.outcome.evidence) { SuppliedBy(last.number, last.outcome.evidence, c); }
    }
  }

  lemma PackedIsSeparate(src: Source, p: Package, items: seq<seq<Evidence>>)
    requires PackageOf(src, p, items) && OwnNumbers(src.originals)
    ensures Separate(p.meetings) && |p.meetings| == |items| && forall i | 0 <= i < |items| :: p.meetings[i].outcome.evidence == items[i]
  {
    forall i | 0 <= i < |p.meetings| ensures Aliased(p.meetings[i].number, p.meetings[i].outcome.evidence) {
      assert Final(src.originals[i], items[i]);
    }
  }

  ghost predicate OwnNumbers(ms: seq<Packed>) { forall i, j | 0 <= i < j < |ms| :: ms[i].number != ms[j].number }

  /**
    Every retained piece is cited under its alias, and its bracketed form is supplied: a form with an alias
    stands for that very piece, [M1] for the meeting's last metadata item.
   */
  lemma RetainedIsCited(src: Source, p: Package, items: seq<seq<Evidence>>, i: nat, e: Evidence)
    requires PackageOf(src, p, items) && OwnNumbers(src.originals) && i < |items| && e in items[i]
    ensures var number := src.originals[i].number; var c := ExactCitation(number, e);
      && e.id in p.citations && p.citations[e.id] == CitationOf(number, e)
      && c in p.supplied && p.supplied[c] == CitationOf(number, if e.kind.MetadataItem? then LastMetadata(items[i]).value else e)
  {
    PackedIsSeparate(src, p, items);
    CitationAt(p.meetings, i, e);
    SuppliedAt(src.originals[i].number, items[i], e);
    SuppliedFrom(p.meetings, i, ExactCitation(src.originals[i].number, e));
  }

  /** Nothing else is cited. */
  lemma CitedIsRetained(src: Source, p: Package, items: seq<seq<Evidence>>, id: Id)
    requires PackageOf(src, p, items) && OwnNumbers(src.originals) && id in p.citations
    ensures exists i :: 0 <= i < |items| && Ledgers.HasId(items[i], id)
  {
    PackedIsSeparate(src, p, items);
    var ms := p.meetings;
    CitationKeys(ms, id);
    var i :| 0 <= i < |ms| && Ledgers.HasId(ms[i].outcome.evidence, id);
    assert ms[i].outcome.evidence == items[i];
  }

  /** No other bracketed form is supplied. */
  lemma SuppliedIsRetained(src: Source, p: Package, items: seq<seq<Evidence>>, c: Cite)
    requires PackageOf(src, p, items) && OwnNumbers(src.originals) && c in p.supplied
    ensures exists i, e :: 0 <= i < |items| && e in items[i] && c == ExactCitation(src.originals[i].number, e)
  {
    PackedIsSeparate(src, p, items);
    SuppliedOnly(p.meetings, c);
    var i :| 0 <= i < |p.meetings| && c in Supplied(p.meetings[i].number, p.meetings[i].outcome.evidence);
    SuppliedBy(src.originals[i].number, items[i], c);
  }

  /** The meetings of a ledger, without what synthesis must not see. */
  function OriginalsOf(l: Ledgers.Ledger): seq<Packed> {
    seq(|l.meetings|, i requires 0 <= i < |l.meetings| => Packed(l.meetings[i].number, l.meetings[i].outcome))
  }

  /** Whatever a run has admitted can be packed. */
  lemma RunCanBePacked(access: string, results: seq<Ledgers.ToolResult>)
    ensures var os := OriginalsOf(Ledgers.After(access, results).ledger);
      MeetingsValid(os) && OwnNumbers(os)
  {
    Ledgers.AdmissionBounds(access, results);
    var l := Ledgers.After(access, results).ledger;
    var os := OriginalsOf(l);
    forall i | 0 <= i < |os| ensures MeetingValid(os[i]) {
      var m := l.meetings[i];
      assert Ledgers.ShelfOf(m).Valid() && Ledgers.MetadataStays(Ledgers.ShelfOf(m));
    }
  }
}
