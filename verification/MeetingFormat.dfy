/**
  packages/eliza-service/src/meeting-evidence.ts, updateCoverage and formatMeetingResult: fit a tool's
  result into the response. The lengths of the JSON texts are parameters.
 */
module MeetingFormats {
  import opened Collections
  import opened MeetingEvidence
  import opened Numbers
  import opened Options

  const RESULT_CHARS := 16_000
  const EVIDENCE_CHARS := 12_000
  const METADATA_CHARS := 2_800

  datatype Operation = Find | ReadMeeting | SearchTranscripts | ListActions

  /** A piece of evidence; when `shared`, its metadata is the very object that its outcome has as its meeting. */
  datatype Item = Item(evidence: Evidence, shared: bool)

  datatype Draft = Draft(
    source: string, ref: string, meeting: Metadata, state: State, body: Body, search: Search, items: seq<Item>, coverage: Coverage)
  {
    function Evidence(): seq<Evidence> {
      seq(|items|, i requires 0 <= i < |items| =>
        if items[i].shared then items[i].evidence.(meta := Some(meeting)) else items[i].evidence)
    }

    function Outcome(): Outcome { MeetingEvidence.Outcome(source, ref, meeting, state, body, search, Evidence(), coverage) }

    predicate Contents() { exists i :: 0 <= i < |items| && !items[i].evidence.kind.MetadataItem? }

    predicate SeveralContents() { CountContents(items) > 1 }

    predicate HasOrganizer() { meeting.organizer.Some? && meeting.organizer.value != "" }

    function TitleLength(): nat { if meeting.title.Some? then |meeting.title.value| else 0 }

    /** There is metadata left to give up. */
    predicate Trimmable() { meeting.participants != [] || TitleLength() > 40 || HasOrganizer() }

    function WithReason(reason: string): Draft {
      if reason in coverage.reasons then this else this.(coverage := coverage.(reasons := coverage.reasons + [reason]))
    }

    function WithTitle(n: nat): Draft
      requires meeting.title.Some? && n <= |meeting.title.value|
    {
      this.(meeting := meeting.(title := Some(meeting.title.value[..n])))
    }

    function WithoutParticipant(): Draft
      requires meeting.participants != []
    {
      this.(meeting := meeting.(participants := meeting.participants[..|meeting.participants| - 1]))
    }

    function WithoutOrganizer(): Draft { this.(meeting := meeting.(organizer := None)) }

    function Usable(e: Evidence): bool {
      match coverage.purpose
      case ForMetadata => e.kind.MetadataItem?
      case ForSummary => e.kind.Summary? || e.kind.Notes? || e.Excerpt()
      case ForSpeaker => e.kind.TranscriptExcerpt? && e.speaker.Some? && e.speaker.value != ""
      case ForActions => e.kind.ActionItem? || e.FromBody()
      case ForDecisions => e.FromBody()
      case ForTranscript => e.FromBody()
      case ForTopic => !e.kind.MetadataItem?
    }

    function UsableCount(n: nat): nat
      requires n <= |items|
    {
      if n == 0 then 0 else UsableCount(n - 1) + if Usable(items[n - 1].evidence) then 1 else 0
    }

    /** updateCoverage. */
    function Covered(): Draft {
      var usable := UsableCount(|items|);
      var limited :=
        || coverage.reasons != [] || (exists i :: 0 <= i < |items| && items[i].evidence.truncated)
        || (coverage.bodyRequired && !body.state.Present?)
        || (coverage.purpose.ForActions? && !exists i :: 0 <= i < |items| && items[i].evidence.kind.ActionItem?);
      this.(search := search.(retainedMatches := if search.state.SearchNotRequested? then 0 else usable),
            coverage := coverage.(retained := |items|, support := if usable == 0 then NoSupport else if limited then Limited else Sufficient))
    }

    function Omit(reason: string): Draft {
      this.(coverage := coverage.(omitted := coverage.omitted + 1)).WithReason(reason).Covered()
    }
  }

  /** The pieces that serve the outcome's purpose. */
  function Serving(d: Draft, n: nat): set<nat>
    requires n <= |d.items|
  {
    set k: nat | k < n && d.Usable(d.items[k].evidence)
  }

  /**
    The coverage says what is there: support is none exactly when no piece serves the purpose, and
    sufficient exactly when one does and nothing is missing or cut.
   */
  ghost predicate Told(d: Draft) {
    && d.coverage.retained == |d.items|
    && d.search.retainedMatches == (if d.search.state.SearchNotRequested? then 0 else |Serving(d, |d.items|)|)
    && (d.coverage.support.NoSupport? <==> forall i | 0 <= i < |d.items| :: !d.Usable(d.items[i].evidence))
    && (d.coverage.support.Sufficient? <==>
          && (exists i :: 0 <= i < |d.items| && d.Usable(d.items[i].evidence))
          && d.coverage.reasons == [] && (forall i | 0 <= i < |d.items| :: !d.items[i].evidence.truncated)
          && (d.coverage.bodyRequired ==> d.body.state.Present?)
          && (d.coverage.purpose.ForActions? ==> exists i :: 0 <= i < |d.items| && d.items[i].evidence.kind.ActionItem?))
  }

  lemma ServingNext(d: Draft, n: nat)
    requires n < |d.items|
    ensures Serving(d, n + 1) == if d.Usable(d.items[n].evidence) then Serving(d, n) + {n} else Serving(d, n)
    ensures n !in Serving(d, n)
  {
  }

  lemma {:induction false} UsableCounted(d: Draft, n: nat)
    requires n <= |d.items|
    ensures d.UsableCount(n) == |Serving(d, n)|
  {
    if n == 0 {
      assert Serving(d, n) == {};
    } else {
      UsableCounted(d, n - 1);
      ServingNext(d, n - 1);
    }
  }

  lemma {:induction false} NoneUsable(d: Draft, n: nat)
    requires n <= |d.items|
    ensures d.UsableCount(n) == 0 <==> forall i | 0 <= i < n :: !d.Usable(d.items[i].evidence)
  {
    if n > 0 {
      NoneUsable(d, n - 1);
    }
  }

  /** updateCoverage leaves a coverage that says what is there. */
  lemma CoveredTells(d: Draft)
    ensures Told(d.Covered())
  {
    UsableCounted(d, |d.items|);
    NoneUsable(d, |d.items|);
    var e := d.Covered();
    assert Serving(e, |d.items|) == Serving(d, |d.items|);
  }

  function CountContents(items: seq<Item>): nat {
    if items == [] then 0 else CountContents(items[..|items| - 1]) + if items[|items| - 1].evidence.kind.MetadataItem? then 0 else 1
  }

  function TextLength(items: seq<Item>): nat {
    if items == [] then 0 else TextLength(items[..|items| - 1]) + |items[|items| - 1].evidence.text|
  }

  /** Lengths of JSON texts: of a meeting's metadata, of an outcome, and of the dispatcher's frame around the whole result. */
  datatype Sizes = Sizes(metadata: Metadata -> nat, outcome: Outcome -> nat, result: seq<Outcome> -> nat)

  function Outcomes(ds: seq<Draft>): seq<Outcome> { seq(|ds|, i requires 0 <= i < |ds| => ds[i].Outcome()) }

  /** The largest of the drafts that satisfy `p`, the first of them where lengths are equal. */
  function Largest(ds: seq<Draft>, sizes: Sizes, p: Draft -> bool): (r: Option<nat>)
    ensures r.Some? ==> r.value < |ds| && p(ds[r.value]) && forall j | 0 <= j < |ds| && p(ds[j]) ::
              sizes.outcome(ds[j].Outcome()) <= sizes.outcome(ds[r.value].Outcome()) && (j < r.value ==> sizes.outcome(ds[j].Outcome()) < sizes.outcome(ds[r.value].Outcome()))
    ensures r.None? ==> forall j | 0 <= j < |ds| :: !p(ds[j])
  {
    if ds == [] then None
    else
      var r, n := Largest(ds[..|ds| - 1], sizes, p), |ds| - 1;
      if p(ds[n]) && (r.None? || sizes.outcome(ds[r.value].Outcome()) < sizes.outcome(ds[n].Outcome())) then Some(n) else r
  }

  function FirstOf(items: seq<Item>, p: Evidence -> bool): (r: Option<nat>)
    ensures r.Some? ==> r.value < |items| && p(items[r.value].evidence) && forall j | 0 <= j < r.value :: !p(items[j].evidence)
    ensures r.None? ==> forall j | 0 <= j < |items| :: !p(items[j].evidence)
  {
    if items == [] then None
    else
      var r := FirstOf(items[..|items| - 1], p);
      if r.Some? then r else if p(items[|items| - 1].evidence) then Some(|items| - 1) else None
  }

  function LastOf(items: seq<Item>, p: Evidence -> bool): (r: Option<nat>)
    ensures r.Some? ==> r.value < |items| && p(items[r.value].evidence) && forall j | r.value < j < |items| :: !p(items[j].evidence)
    ensures r.None? ==> forall j | 0 <= j < |items| :: !p(items[j].evidence)
  {
    if items == [] then None
    else if p(items[|items| - 1].evidence) then Some(|items| - 1)
    else LastOf(items[..|items| - 1], p)
  }

  predicate Overview(e: Evidence) { e.kind.Summary? || e.kind.Notes? }

  /** What is cut next: the last quotation of the body; for an action list the overview; the last action; or the first content. */
  function Choose(op: Operation, d: Draft): (k: nat)
    requires d.Contents()
    ensures k < |d.items| && !d.items[k].evidence.kind.MetadataItem?
    ensures var quoted := exists i :: 0 <= i < |d.items| && d.items[i].evidence.Excerpt();
      var overview := op.ListActions? && exists i :: 0 <= i < |d.items| && Overview(d.items[i].evidence);
      var action := exists i :: 0 <= i < |d.items| && d.items[i].evidence.kind.ActionItem?;
      if quoted then d.items[k].evidence.Excerpt() && forall j | k < j < |d.items| :: !d.items[j].evidence.Excerpt()
      else if overview then Overview(d.items[k].evidence) && forall j | 0 <= j < k :: !Overview(d.items[j].evidence)
      else if action then d.items[k].evidence.kind.ActionItem? && forall j | k < j < |d.items| :: !d.items[j].evidence.kind.ActionItem?
      else forall j | 0 <= j < k :: d.items[j].evidence.kind.MetadataItem?
  {
    var excerpt := LastOf(d.items, (e: Evidence) => e.Excerpt());
    var overview := FirstOf(d.items, (e: Evidence) => Overview(e));
    var action := LastOf(d.items, (e: Evidence) => e.kind.ActionItem?);
    if excerpt.Some? then excerpt.value
    else if op.ListActions? && overview.Some? then overview.value
    else if action.Some? then action.value
    else FirstOf(d.items, (e: Evidence) => !e.kind.MetadataItem?).value
  }

  /** Six tenths of a long text. */
  function Shorter(e: Evidence): Evidence
    requires |e.text| > 100
  {
    var n := Max(60, |e.text| * 6 / 10);
    e.(text := e.text[..n], truncated := true,
       offsets := if e.offsets.Some? then Some(Offsets(e.offsets.value.start, e.offsets.value.start + n)) else None)
  }

  /** Cut the chosen content of a draft: shorten a long text, remove a short one. */
  function CutContent(op: Operation, d: Draft): Draft
    requires d.Contents()
  {
    var k := Choose(op, d);
    var e := d.items[k].evidence;
    if |e.text| > 100 then d.(items := d.items[k := d.items[k].(evidence := Shorter(e))]).WithReason("response_limit").Covered()
    else d.(items := d.items[..k] + d.items[k + 1..]).Omit("response_limit")
  }

  /** A long piece keeps six tenths of its text, with its offsets cut to match, and says so; a short one goes. No other piece changes. */
  lemma ContentCutIs(op: Operation, d: Draft)
    requires d.Contents()
    ensures var k, t := Choose(op, d), CutContent(op, d); var e := d.items[k].evidence;
      && "response_limit" in t.coverage.reasons && t.meeting == d.meeting
      && if |e.text| > 100 then
           && |t.items| == |d.items| && (forall j | 0 <= j < |d.items| && j != k :: t.items[j] == d.items[j])
           && var x := t.items[k].evidence;
              && x.text < e.text && 10 * |x.text| <= 6 * |e.text| < 10 * (|x.text| + 1) && x.truncated
              && (e.offsets.Some? ==> x.offsets == Some(Offsets(e.offsets.value.start, e.offsets.value.start + |x.text|)))
              && t.coverage.omitted == d.coverage.omitted
         else t.items == d.items[..k] + d.items[k + 1..] && t.coverage.omitted == d.coverage.omitted + 1
  {
  }

  /** Metadata items take over the reduced meeting. */
  function Reshared(items: seq<Item>): seq<Item> {
    seq(|items|, i requires 0 <= i < |items| =>
      if items[i].evidence.kind.MetadataItem? then Item(items[i].evidence.(truncated := true), true) else items[i])
  }

  /** The draft with its metadata reduced, before it is counted again. */
  function Trimmed(d: Draft): Draft
    requires d.Trimmable()
  {
    var e := if d.meeting.participants != [] then d.WithoutParticipant() else if d.HasOrganizer() then d.WithoutOrganizer() else d.WithTitle(40);
    e.(items := Reshared(e.items))
  }

  function CutMetadata(d: Draft): Draft
    requires d.Trimmable()
  {
    Trimmed(d).Omit("metadata_response_limit")
  }

  /** Fitting gives up metadata from the end: the last attendee, else the organizer, else all but 40 characters of the title. */
  lemma MetadataCutIs(d: Draft)
    requires d.Trimmable()
    ensures var t := CutMetadata(d);
      && t.meeting.startedAt == d.meeting.startedAt && |t.items| == |d.items| && t.coverage.omitted == d.coverage.omitted + 1
      && (if d.meeting.participants != [] then
            && d.meeting.participants == t.meeting.participants + [d.meeting.participants[|d.meeting.participants| - 1]]
            && t.meeting.organizer == d.meeting.organizer && t.meeting.title == d.meeting.title
          else if d.HasOrganizer() then t.meeting == d.meeting.(organizer := None)
          else t.meeting.title.Some? && t.meeting.title.value <= d.meeting.title.value && |t.meeting.title.value| == 40)
      && forall i | 0 <= i < |d.items| ::
           if d.items[i].evidence.kind.MetadataItem? then t.items[i].shared && t.items[i].evidence.truncated && t.items[i].evidence.text == d.items[i].evidence.text
           else t.items[i] == d.items[i]
  {
    assert d.meeting.participants != [] ==> d.meeting.participants == d.meeting.participants[..|d.meeting.participants| - 1] + [d.meeting.participants[|d.meeting.participants| - 1]];
  }

  /** One round of fitting; None when there is nothing left to give up. */
  function Reduce(op: Operation, sizes: Sizes, ds: seq<Draft>): Option<seq<Draft>> {
    var several := Largest(ds, sizes, (d: Draft) => d.SeveralContents());
    var any := Largest(ds, sizes, (d: Draft) => d.Contents());
    var trimmable := Largest(ds, sizes, (d: Draft) => d.Trimmable());
    if several.Some? then
      CountedContents(ds[several.value].items);
      Some(ds[several.value := CutContent(op, ds[several.value])])
    else if any.Some? then Some(ds[any.value := CutContent(op, ds[any.value])])
    else if trimmable.Some? then Some(ds[trimmable.value := CutMetadata(ds[trimmable.value])])
    else None
  }

  lemma {:induction false} CountedContents(items: seq<Item>)
    ensures CountContents(items) > 0 ==> exists i :: 0 <= i < |items| && !items[i].evidence.kind.MetadataItem?
  {
    if items != [] {
      CountedContents(items[..|items| - 1]);
    }
  }

  /** What a draft can still give up: content text, pieces of evidence, participants, an organizer, and what a title has over 40 characters. */
  function Weight(d: Draft): nat {
    ContentLength(d.items) + |d.items| + |d.meeting.participants| + (if d.HasOrganizer() then 1 else 0) + (if d.TitleLength() > 40 then d.TitleLength() - 40 else 0)
  }

  function ContentLength(items: seq<Item>): nat {
    if items == [] then 0
    else ContentLength(items[..|items| - 1]) + if items[|items| - 1].evidence.kind.MetadataItem? then 0 else |items[|items| - 1].evidence.text|
  }

  function TotalWeight(ds: seq<Draft>): nat { if ds == [] then 0 else TotalWeight(ds[..|ds| - 1]) + Weight(ds[|ds| - 1]) }

  lemma {:induction false} ContentAppend(a: seq<Item>, b: seq<Item>)
    ensures ContentLength(a + b) == ContentLength(a) + ContentLength(b)
    decreases |b|
  {
    if b == [] {
      assert a + b == a;
    } else {
      ContentAppend(a, b[..|b| - 1]);
      assert (a + b)[..|a + b| - 1] == a + b[..|b| - 1];
    }
  }

  function ContentOf(i: Item): nat { if i.evidence.kind.MetadataItem? then 0 else |i.evidence.text| }

  lemma ContentAround(items: seq<Item>, k: nat)
    requires k < |items|
    ensures ContentLength(items) == ContentLength(items[..k] + items[k + 1..]) + ContentOf(items[k])
    ensures forall x: Item :: ContentLength(items[k := x]) == ContentLength(items[..k] + items[k + 1..]) + ContentOf(x)
  {
    var a, b := items[..k], items[k + 1..];
    ContentAppend(a, b);
    forall x: Item ensures ContentLength(items[k := x]) == ContentLength(a + b) + ContentOf(x) {
      ContentAppend(a, [x]);
      ContentAppend(a + [x], b);
      assert items[k := x] == a + [x] + b && [x][..0] == [];
    }
    assert items[k := items[k]] == items;
  }

  lemma {:induction false} ContentReshared(items: seq<Item>)
    ensures ContentLength(Reshared(items)) == ContentLength(items)
  {
    if items != [] {
      ContentReshared(items[..|items| - 1]);
      assert Reshared(items)[..|items| - 1] == Reshared(items[..|items| - 1]);
    }
  }

  lemma ShorterIsShorter(i: Item)
    requires !i.evidence.kind.MetadataItem? && |i.evidence.text| > 100
    ensures ContentOf(i.(evidence := Shorter(i.evidence))) < ContentOf(i)
  {
  }

  lemma ShorterWeighsLess(items: seq<Item>, k: nat)
    requires k < |items| && !items[k].evidence.kind.MetadataItem? && |items[k].evidence.text| > 100
    ensures ContentLength(items[k := items[k].(evidence := Shorter(items[k].evidence))]) < ContentLength(items)
  {
    ShorterIsShorter(items[k]);
    ContentAround(items, k);
  }

  lemma RemovedWeighsNoMore(items: seq<Item>, k: nat)
    requires k < |items|
    ensures ContentLength(items[..k] + items[k + 1..]) <= ContentLength(items)
  {
    ContentAround(items, k);
  }

  /** Every round gives something up. */
  lemma RemovedWeighsLess(op: Operation, d: Draft)
    requires d.Contents() && |d.items[Choose(op, d)].evidence.text| <= 100
    ensures Weight(CutContent(op, d)) < Weight(d)
  {
    RemovedWeighsNoMore(d.items, Choose(op, d));
  }

  lemma ContentCutWeighsLess(op: Operation, d: Draft)
    requires d.Contents()
    ensures Weight(CutContent(op, d)) < Weight(d)
  {
    var k := Choose(op, d);
    if |d.items[k].evidence.text| > 100 {
      ShorterWeighsLess(d.items, k);
    } else {
      RemovedWeighsLess(op, d);
    }
  }

  lemma MetadataCutWeighsLess(d: Draft)
    requires d.Trimmable()
    ensures Weight(CutMetadata(d)) < Weight(d)
  {
    ContentReshared(d.items);
  }

  lemma {:induction false} WeightUpdate(ds: seq<Draft>, i: nat, d: Draft)
    requires i < |ds| && Weight(d) < Weight(ds[i])
    ensures TotalWeight(ds[i := d]) < TotalWeight(ds)
  {
    if i < |ds| - 1 {
      WeightUpdate(ds[..|ds| - 1], i, d);
      assert ds[i := d][..|ds| - 1] == ds[..|ds| - 1][i := d];
    }
  }

  /**
    The round reduces one draft: it cuts one content of it, the last one only when no draft has two; or
    some of its metadata, when no draft has content.
   */
  predicate RoundAt(op: Operation, before: seq<Draft>, after: seq<Draft>, i: nat) {
    && i < |before|
    && if before[i].Contents() then
         && after == before[i := CutContent(op, before[i])]
         && (before[i].SeveralContents() || forall d | d in before :: !d.SeveralContents())
       else
         && before[i].Trimmable() && after == before[i := CutMetadata(before[i])]
         && forall d | d in before :: !d.Contents()
  }

  ghost predicate Round(op: Operation, before: seq<Draft>, after: seq<Draft>) { exists i: nat :: RoundAt(op, before, after, i) }

  lemma ReduceIsRound(op: Operation, sizes: Sizes, ds: seq<Draft>)
    ensures Reduce(op, sizes, ds).Some? ==> Round(op, ds, Reduce(op, sizes, ds).value)
    ensures Reduce(op, sizes, ds).None? <==> forall i | 0 <= i < |ds| :: !ds[i].Contents() && !ds[i].Trimmable()
  {
    var r := Reduce(op, sizes, ds);
    var several := Largest(ds, sizes, (d: Draft) => d.SeveralContents());
    var any := Largest(ds, sizes, (d: Draft) => d.Contents());
    var trimmable := Largest(ds, sizes, (d: Draft) => d.Trimmable());
    if several.Some? {
      CountedContents(ds[several.value].items);
      assert RoundAt(op, ds, r.value, several.value);
    } else if any.Some? {
      assert RoundAt(op, ds, r.value, any.value);
    } else if trimmable.Some? {
      assert RoundAt(op, ds, r.value, trimmable.value);
    }
  }

  lemma RoundWeighsLess(op: Operation, before: seq<Draft>, after: seq<Draft>)
    requires Round(op, before, after)
    ensures TotalWeight(after) < TotalWeight(before)
  {
    var i: nat :| RoundAt(op, before, after, i);
    if before[i].Contents() { ContentCutWeighsLess(op, before[i]); } else { MetadataCutWeighsLess(before[i]); }
    WeightUpdate(before, i, after[i]);
  }

  /** What remains of the evidence: in order, each piece whole or shortened, or gone. */
  predicate From(original: Evidence, e: Evidence) {
    && e.id == original.id && e.kind == original.kind && e.speaker == original.speaker && e.startSecs == original.startSecs
    && e.text <= original.text && (e.text != original.text || original.truncated ==> e.truncated)
    && (e.offsets.Some? <==> original.offsets.Some?) && (e.offsets.Some? ==> e.offsets.value.start == original.offsets.value.start)
    && (original.kind.MetadataItem? ==> e.text == original.text)
  }

  predicate Remains(raw: seq<Item>, items: seq<Item>)
    decreases |raw|
  {
    if items == [] then true
    else if raw == [] then false
    else
      || (From(raw[|raw| - 1].evidence, items[|items| - 1].evidence) && Remains(raw[..|raw| - 1], items[..|items| - 1]))
      || Remains(raw[..|raw| - 1], items)
  }

  lemma {:induction false} RemainsWhole(items: seq<Item>)
    ensures Remains(items, items)
  {
    if items != [] {
      RemainsWhole(items[..|items| - 1]);
    }
  }

  lemma RemainsSnoc(raw: seq<Item>, items: seq<Item>)
    requires raw != [] && items != [] && From(raw[|raw| - 1].evidence, items[|items| - 1].evidence)
    requires Remains(raw[..|raw| - 1], items[..|items| - 1])
    ensures Remains(raw, items)
  {
  }

  /** Cutting a piece in front of the last one leaves the last one in its place. */
  lemma CutInFront(items: seq<Item>, k: nat, x: Item)
    requires k < |items| - 1
    ensures var n := |items| - 1; var without := items[..k] + items[k + 1..];
      && items[k := x][..n] == items[..n][k := x] && items[k := x][n] == items[n]
      && without[..n - 1] == items[..n][..k] + items[..n][k + 1..] && |without| == n && without[n - 1] == items[n]
  {
  }

  lemma CutAtLast(items: seq<Item>, x: Item)
    requires items != []
    ensures var n := |items| - 1; items[..n] + items[n + 1..] == items[..n] && items[n := x][..n] == items[..n]
  {
  }

  /** A piece may be shortened further, or removed. */
  lemma {:induction false} RemainsCut(raw: seq<Item>, items: seq<Item>, k: nat, x: Item)
    requires Remains(raw, items) && k < |items| && From(items[k].evidence, x.evidence)
    ensures Remains(raw, items[k := x]) && Remains(raw, items[..k] + items[k + 1..])
    decreases |raw|
  {
    var n := |items| - 1;
    if From(raw[|raw| - 1].evidence, items[n].evidence) && Remains(raw[..|raw| - 1], items[..n]) {
      if k < n {
        RemainsCut(raw[..|raw| - 1], items[..n], k, x);
        CutInFront(items, k, x);
        RemainsSnoc(raw, items[k := x]);
        RemainsSnoc(raw, items[..k] + items[k + 1..]);
      } else {
        CutAtLast(items, x);
        RemainsLonger(raw, items[..n]);
        RemainsSnoc(raw, items[k := x]);
      }
    } else {
      RemainsCut(raw[..|raw| - 1], items, k, x);
      RemainsLonger(raw, items[k := x]);
      RemainsLonger(raw, items[..k] + items[k + 1..]);
    }
  }

  lemma RemainsLonger(raw: seq<Item>, items: seq<Item>)
    requires raw != [] && Remains(raw[..|raw| - 1], items)
    ensures Remains(raw, items)
  {
  }

  lemma {:induction false} RemainsReshared(raw: seq<Item>, items: seq<Item>)
    requires Remains(raw, items)
    ensures Remains(raw, Reshared(items))
    decreases |raw|
  {
    if items != [] && raw != [] {
      var n := |items| - 1;
      assert Reshared(items)[..n] == Reshared(items[..n]);
      if From(raw[|raw| - 1].evidence, items[n].evidence) && Remains(raw[..|raw| - 1], items[..n]) {
        RemainsReshared(raw[..|raw| - 1], items[..n]);
      } else {
        RemainsReshared(raw[..|raw| - 1], items);
      }
    }
  }

  predicate TitleCut(raw: Option<string>, t: Option<string>) { raw.Some? == t.Some? && (t.Some? ==> t.value <= raw.value) }

  /** What fitting leaves of an outcome: its identity and statuses; part of its metadata and of its evidence; and a coverage that says so. */
  ghost predicate Fitted(raw: Draft, d: Draft) {
    && d.source == raw.source && d.ref == raw.ref && d.state == raw.state && d.body == raw.body
    && d.search.state == raw.search.state && d.coverage.purpose == raw.coverage.purpose && d.coverage.bodyRequired == raw.coverage.bodyRequired
    && d.meeting.participants <= raw.meeting.participants && TitleCut(raw.meeting.title, d.meeting.title)
    && (d.meeting.organizer == raw.meeting.organizer || d.meeting.organizer.None?)
    && Remains(raw.items, d.items)
    && d.coverage.omitted >= raw.coverage.omitted && raw.coverage.reasons <= d.coverage.reasons
  }

  /** parseMeetingToolData accepts the outcome. */
  predicate Sound(d: Draft) { AcceptedOutcome(d.Outcome()) }

  lemma SoundItems(d: Draft)
    ensures Sound(d) <==> d.source != "" && d.ref != "" && d.coverage.retained == |d.items|
                          && forall i | 0 <= i < |d.items| :: AcceptedEvidence(d.items[i].evidence)
  {
    var es := d.Evidence();
    assert forall i | 0 <= i < |d.items| :: AcceptedEvidence(es[i]) == AcceptedEvidence(d.items[i].evidence);
    if forall i | 0 <= i < |d.items| :: AcceptedEvidence(d.items[i].evidence) {
      assert forall i | 0 <= i < |es| :: AcceptedEvidence(es[i]);
    } else {
      var i :| 0 <= i < |d.items| && !AcceptedEvidence(d.items[i].evidence);
      assert !AcceptedEvidence(es[i]);
    }
  }

  lemma FittedSelf(d: Draft)
    ensures Fitted(d, d)
  {
    RemainsWhole(d.items);
  }

  /** What bookkeeping leaves alone, and what it may change. */
  predicate Recounted(d: Draft, e: Draft) {
    && e.source == d.source && e.ref == d.ref && e.state == d.state && e.body == d.body && e.search.state == d.search.state
    && e.meeting == d.meeting && e.items == d.items && e.coverage.purpose == d.coverage.purpose && e.coverage.bodyRequired == d.coverage.bodyRequired
    && e.coverage.omitted >= d.coverage.omitted && d.coverage.reasons <= e.coverage.reasons && e.coverage.retained == |e.items|
  }

  lemma BookkeepingRecounts(d: Draft, reason: string)
    ensures Recounted(d, d.WithReason(reason).Covered()) && Recounted(d, d.Omit(reason))
  {
  }

  /** With the items or the metadata reduced, the rest of the draft fits as before. */
  lemma RecountedFits(raw: Draft, d: Draft, e: Draft)
    requires Fitted(raw, d) && Recounted(d, e)
    ensures Fitted(raw, e)
  {
  }

  lemma RecountedSound(d: Draft, e: Draft)
    requires Recounted(d, e) && d.source != "" && d.ref != "" && forall i | 0 <= i < |d.items| :: AcceptedEvidence(d.items[i].evidence)
    ensures Sound(e)
  {
    SoundItems(e);
  }

  function WithoutItem(d: Draft, k: nat): Draft
    requires k < |d.items|
  {
    d.(items := d.items[..k] + d.items[k + 1..])
  }

  function WithItem(d: Draft, k: nat, x: Item): Draft
    requires k < |d.items|
  {
    d.(items := d.items[k := x])
  }

  lemma ItemsFit(raw: Draft, d: Draft, k: nat, x: Item)
    requires Fitted(raw, d) && k < |d.items| && From(d.items[k].evidence, x.evidence)
    ensures Fitted(raw, WithItem(d, k, x)) && Fitted(raw, WithoutItem(d, k))
  {
    RemainsCut(raw.items, d.items, k, x);
  }

  lemma ShortenedFits(op: Operation, raw: Draft, d: Draft)
    requires Fitted(raw, d) && d.Contents() && |d.items[Choose(op, d)].evidence.text| > 100
    ensures Fitted(raw, CutContent(op, d))
  {
    var k := Choose(op, d);
    var x := d.items[k].(evidence := Shorter(d.items[k].evidence));
    ItemsFit(raw, d, k, x);
    BookkeepingRecounts(WithItem(d, k, x), "response_limit");
    RecountedFits(raw, WithItem(d, k, x), CutContent(op, d));
  }

  lemma ContentCutFits(op: Operation, raw: Draft, d: Draft)
    requires Fitted(raw, d) && d.Contents()
    ensures Fitted(raw, CutContent(op, d))
  {
    var k := Choose(op, d);
    if |d.items[k].evidence.text| > 100 {
      ShortenedFits(op, raw, d);
    } else {
      ItemsFit(raw, d, k, d.items[k]);
      BookkeepingRecounts(WithoutItem(d, k), "response_limit");
      RecountedFits(raw, WithoutItem(d, k), CutContent(op, d));
    }
  }

  lemma ShortenedSound(op: Operation, d: Draft)
    requires d.Contents() && Sound(d) && |d.items[Choose(op, d)].evidence.text| > 100
    ensures Sound(CutContent(op, d))
  {
    SoundItems(d);
    var k := Choose(op, d);
    var x := d.items[k].(evidence := Shorter(d.items[k].evidence));
    BookkeepingRecounts(WithItem(d, k, x), "response_limit");
    RecountedSound(WithItem(d, k, x), CutContent(op, d));
  }

  lemma ContentCutSound(op: Operation, d: Draft)
    requires d.Contents() && Sound(d)
    ensures Sound(CutContent(op, d))
  {
    var k := Choose(op, d);
    if |d.items[k].evidence.text| > 100 {
      ShortenedSound(op, d);
    } else {
      SoundItems(d);
      BookkeepingRecounts(WithoutItem(d, k), "response_limit");
      RecountedSound(WithoutItem(d, k), CutContent(op, d));
    }
  }

  lemma TrimmedFits(raw: Draft, d: Draft)
    requires Fitted(raw, d) && d.Trimmable()
    ensures Fitted(raw, Trimmed(d))
  {
    RemainsReshared(raw.items, d.items);
  }

  lemma MetadataCutFits(raw: Draft, d: Draft)
    requires Fitted(raw, d) && d.Trimmable()
    ensures Fitted(raw, CutMetadata(d)) && (Sound(d) ==> Sound(CutMetadata(d)))
  {
    TrimmedFits(raw, d);
    BookkeepingRecounts(Trimmed(d), "metadata_response_limit");
    RecountedFits(raw, Trimmed(d), CutMetadata(d));
    SoundItems(d);
    if Sound(d) { RecountedSound(Trimmed(d), CutMetadata(d)); }
  }

  /** Nothing that the coverage counts has been touched. */
  predicate Uncut(raw: Draft, d: Draft) { d.items == raw.items && d.search == raw.search && d.coverage.support == raw.coverage.support }

  ghost predicate Keeps(raw: Draft, d: Draft) {
    Fitted(raw, d) && (Sound(raw) ==> Sound(d)) && (Uncut(raw, d) || Told(d))
  }

  ghost predicate AllFitted(raws: seq<Draft>, ds: seq<Draft>) {
    |raws| == |ds| && forall i {:trigger ds[i]} | 0 <= i < |ds| :: Keeps(raws[i], ds[i])
  }

  function CutOnce(op: Operation, d: Draft): Draft
    requires d.Contents() || d.Trimmable()
  {
    if d.Contents() then CutContent(op, d) else CutMetadata(d)
  }

  lemma ContentCutIsTold(op: Operation, d: Draft)
    requires d.Contents()
    ensures Told(CutContent(op, d))
  {
    var k := Choose(op, d);
    var e := d.items[k].evidence;
    if |e.text| > 100 {
      CoveredTells(d.(items := d.items[k := d.items[k].(evidence := Shorter(e))]).WithReason("response_limit"));
    } else {
      OmittedIsTold(d.(items := d.items[..k] + d.items[k + 1..]), "response_limit");
    }
  }

  lemma CutIsTold(op: Operation, d: Draft)
    requires d.Contents() || d.Trimmable()
    ensures Told(CutOnce(op, d))
  {
    if d.Contents() {
      ContentCutIsTold(op, d);
    } else {
      OmittedIsTold(Trimmed(d), "metadata_response_limit");
    }
  }

  lemma OmittedIsTold(d: Draft, reason: string)
    ensures Told(d.Omit(reason))
  {
    CoveredTells(d.(coverage := d.coverage.(omitted := d.coverage.omitted + 1)).WithReason(reason));
  }

  lemma CutKeeps(op: Operation, raw: Draft, d: Draft)
    requires Keeps(raw, d) && (d.Contents() || d.Trimmable())
    ensures Keeps(raw, CutOnce(op, d))
  {
    CutIsTold(op, d);
    if d.Contents() {
      ContentCutFits(op, raw, d);
      if Sound(d) { ContentCutSound(op, d); }
    } else {
      MetadataCutFits(raw, d);
    }
  }

  lemma RoundFits(op: Operation, raws: seq<Draft>, before: seq<Draft>, after: seq<Draft>)
    requires AllFitted(raws, before) && Round(op, before, after)
    ensures AllFitted(raws, after)
  {
    var i: nat :| RoundAt(op, before, after, i);
    CutKeeps(op, raws[i], before[i]);
  }

  lemma ReasonKeeps(raw: Draft, d: Draft, e: Draft, reason: string)
    requires Keeps(raw, d) && Uncut(raw, d) && e == d.(meeting := e.meeting) && Fitted(raw, e)
    ensures Keeps(raw, e.WithReason(reason)) && Uncut(raw, e.WithReason(reason))
  {
    SoundItems(d);
    SoundItems(e.WithReason(reason));
  }

  lemma PopKeeps(raw: Draft, d: Draft, reason: string)
    requires Keeps(raw, d) && d.items != []
    ensures Keeps(raw, d.(items := d.items[..|d.items| - 1]).Omit(reason))
  {
    var n := |d.items| - 1;
    var e := d.(items := d.items[..n]);
    ItemsFit(raw, d, n, d.items[n]);
    assert e == WithoutItem(d, n);
    BookkeepingRecounts(e, reason);
    RecountedFits(raw, e, e.Omit(reason));
    OmittedIsTold(e, reason);
    SoundItems(d);
    if Sound(d) { RecountedSound(e, e.Omit(reason)); }
  }

  /** What a content response gives up next of its metadata: an attendee, then half of the title, then the organizer. */
  function Shed(d: Draft): Draft
    requires d.Trimmable()
  {
    if d.meeting.participants != [] then d.WithoutParticipant()
    else if d.TitleLength() > 40 then d.WithTitle(Max(40, d.TitleLength() / 2))
    else d.WithoutOrganizer()
  }

  /** The title goes only when no attendee is left, and the organizer only when the title is short as well. */
  predicate ShedInOrder(raw: Draft, d: Draft) {
    && (d.meeting.title != raw.meeting.title ==> d.meeting.participants == [] && d.TitleLength() >= 40)
    && (d.meeting.organizer != raw.meeting.organizer ==> d.meeting.participants == [] && d.TitleLength() <= 40)
    && (d.meeting != raw.meeting ==> "metadata_response_limit" in d.coverage.reasons)
  }

  lemma ShedKeepsOrder(raw: Draft, d: Draft)
    requires ShedInOrder(raw, d) && d.Trimmable()
    ensures ShedInOrder(raw, Shed(d).WithReason("metadata_response_limit"))
  {
  }

  lemma ShedFits(raw: Draft, d: Draft)
    requires Fitted(raw, d) && d.Trimmable()
    ensures Fitted(raw, Shed(d)) && Shed(d) == d.(meeting := Shed(d).meeting)
  {
  }

  lemma ShedKeeps(raw: Draft, d: Draft)
    requires Keeps(raw, d) && Uncut(raw, d) && ShedInOrder(raw, d) && d.Trimmable()
    ensures var e := Shed(d).WithReason("metadata_response_limit"); Keeps(raw, e) && Uncut(raw, e) && ShedInOrder(raw, e)
  {
    ShedFits(raw, d);
    ShedKeepsOrder(raw, d);
    ReasonKeeps(raw, d, Shed(d), "metadata_response_limit");
  }

  /** Content responses give up metadata in that order, and no more of it than they must. */
  method ReserveMetadata(raw: Draft, sizes: Sizes, limit: nat) returns (d: Draft, ghost before: Draft)
    ensures Keeps(raw, d) && Uncut(raw, d) && (sizes.metadata(d.meeting) <= limit || !d.Trimmable())
    ensures ShedInOrder(raw, d)
    ensures d == raw || (sizes.metadata(before.meeting) > limit && before.Trimmable() && d == Shed(before).WithReason("metadata_response_limit"))
    ensures sizes.metadata(raw.meeting) <= limit ==> d == raw
  {
    d, before := raw, raw;
    FittedSelf(raw);
    while sizes.metadata(d.meeting) > limit && d.Trimmable()
      invariant Keeps(raw, d) && Uncut(raw, d) && ShedInOrder(raw, d) && (sizes.metadata(raw.meeting) <= limit ==> d == raw)
      invariant d == raw || (sizes.metadata(before.meeting) > limit && before.Trimmable() && d == Shed(before).WithReason("metadata_response_limit"))
      decreases |d.meeting.participants|, d.TitleLength(), d.HasOrganizer()
    {
      var e := d;
      if d.meeting.participants != [] {
        e := d.WithoutParticipant();
      } else if d.TitleLength() > 40 {
        e := d.WithTitle(Max(40, d.TitleLength() / 2));
      } else {
        e := d.WithoutOrganizer();
      }
      ShedKeeps(raw, d);
      before := d;
      d := e.WithReason("metadata_response_limit");
    }
  }

  /** `d` is `before` without its last pieces, each of which had to go. */
  ghost predicate Popped(before: Draft, d: Draft) {
    && d.items <= before.items && d.meeting == before.meeting
    && d.coverage.omitted == before.coverage.omitted + (|before.items| - |d.items|)
    && forall n | |d.items| < n <= |before.items| :: TextLength(before.items[..n]) > EVIDENCE_CHARS
  }

  lemma PopIs(before: Draft, d: Draft, reason: string)
    requires Popped(before, d) && TextLength(d.items) > EVIDENCE_CHARS
    ensures d.items != [] && Popped(before, d.(items := d.items[..|d.items| - 1]).Omit(reason))
  {
    assert before.items[..|d.items|] == d.items;
  }

  method LimitEvidence(ghost raw: Draft, before: Draft) returns (d: Draft)
    requires Keeps(raw, before)
    ensures Keeps(raw, d) && TextLength(d.items) <= EVIDENCE_CHARS && Popped(before, d)
    ensures TextLength(before.items) <= EVIDENCE_CHARS ==> d == before
  {
    d := before;
    while TextLength(d.items) > EVIDENCE_CHARS
      invariant Keeps(raw, d) && Popped(before, d) && (TextLength(before.items) <= EVIDENCE_CHARS ==> d == before)
      decreases |d.items|
    {
      PopKeeps(raw, d, "evidence_limit");
      PopIs(before, d, "evidence_limit");
      d := d.(items := d.items[..|d.items| - 1]).Omit("evidence_limit");
    }
  }

  /** What the outcomes look like before the result is measured. */
  predicate Small(op: Operation, sizes: Sizes, d: Draft, n: nat)
    requires n > 0
  {
    TextLength(d.items) <= EVIDENCE_CHARS && (op.Find? || sizes.metadata(d.meeting) <= METADATA_CHARS / n)
  }

  predicate AllSmall(op: Operation, sizes: Sizes, raws: seq<Draft>) { forall i | 0 <= i < |raws| :: Small(op, sizes, raws[i], |raws|) }

  method Reserve(op: Operation, raws: seq<Draft>, sizes: Sizes) returns (ds: seq<Draft>)
    ensures AllFitted(raws, ds) && forall i | 0 <= i < |ds| :: TextLength(ds[i].items) <= EVIDENCE_CHARS
    ensures AllSmall(op, sizes, raws) ==> ds == raws
  {
    ds := [];
    for i := 0 to |raws|
      invariant |ds| == i && forall k {:trigger ds[k]} | 0 <= k < i :: Keeps(raws[k], ds[k]) && TextLength(ds[k].items) <= EVIDENCE_CHARS
      invariant AllSmall(op, sizes, raws) ==> ds == raws[..i]
    {
      var d := raws[i];
      FittedSelf(d);
      if !op.Find? {
        ghost var before: Draft;
        d, before := ReserveMetadata(d, sizes, METADATA_CHARS / |raws|);
      }
      d := LimitEvidence(raws[i], d);
      ds := ds + [d];
    }
  }

  /** A round that follows on a result that was too long. */
  ghost predicate NextRound(op: Operation, sizes: Sizes, before: seq<Draft>, after: seq<Draft>) {
    Round(op, before, after) && sizes.result(Outcomes(before)) > RESULT_CHARS
  }

  ghost function Goes(op: Operation, sizes: Sizes): (seq<Draft>, seq<Draft>) -> bool {
    (before: seq<Draft>, after: seq<Draft>) => NextRound(op, sizes, before, after)
  }

  /** A round goes on from outcomes that fit as before, and gives something up; or nothing is left to give up. */
  lemma ReduceGoesOn(op: Operation, sizes: Sizes, raws: seq<Draft>, ds: seq<Draft>)
    requires AllFitted(raws, ds)
    ensures var next := Reduce(op, sizes, ds);
      && (next.Some? ==> Round(op, ds, next.value) && AllFitted(raws, next.value) && TotalWeight(next.value) < TotalWeight(ds))
      && (next.None? ==> forall i | 0 <= i < |ds| :: !ds[i].Contents() && !ds[i].Trimmable())
  {
    ReduceIsRound(op, sizes, ds);
    var next := Reduce(op, sizes, ds);
    if next.Some? {
      RoundWeighsLess(op, ds, next.value);
      RoundFits(op, raws, ds, next.value);
    }
  }

  /** The outcomes that came, and what the rounds so far have left of them. */
  ghost predicate Reducing(op: Operation, sizes: Sizes, raws: seq<Draft>, ds: seq<Draft>, rounds: seq<seq<Draft>>) {
    && AllFitted(raws, ds) && rounds != [] && rounds[|rounds| - 1] == ds && Linked(rounds, Goes(op, sizes))
    && (AllSmall(op, sizes, raws) && sizes.result(Outcomes(raws)) <= RESULT_CHARS ==> ds == raws)
  }

  lemma ReducingGoesOn(op: Operation, sizes: Sizes, raws: seq<Draft>, ds: seq<Draft>, rounds: seq<seq<Draft>>)
    requires Reducing(op, sizes, raws, ds, rounds) && sizes.result(Outcomes(ds)) > RESULT_CHARS
    ensures var next := Reduce(op, sizes, ds);
      && (next.Some? ==> Reducing(op, sizes, raws, next.value, rounds + [next.value]) && TotalWeight(next.value) < TotalWeight(ds))
      && (next.None? ==> forall i | 0 <= i < |ds| :: !ds[i].Contents() && !ds[i].Trimmable())
  {
    ReduceGoesOn(op, sizes, raws, ds);
    var next := Reduce(op, sizes, ds);
    if next.Some? {
      LinkedSnoc(rounds, next.value, Goes(op, sizes));
    }
  }

  /**
    formatMeetingResult terminates, and returns a result that fits or fails with everything given up. It
    gives something up only in rounds, each made because the result was still too long. What it returns
    keeps every outcome's identity and part of its evidence; parseMeetingToolData accepts it if it
    would have accepted the outcomes as they came; and outcomes that fit are returned as they are.
   */
  method FormatMeetingResult(op: Operation, raws: seq<Draft>, sizes: Sizes) returns (r: Option<seq<Draft>>, ghost rounds: seq<seq<Draft>>)
    ensures rounds != [] && Linked(rounds, Goes(op, sizes))
    ensures var last := rounds[|rounds| - 1];
      && AllFitted(raws, last)
      && (r.Some? ==> r.value == last && sizes.result(Outcomes(last)) <= RESULT_CHARS)
      && (r.None? ==> sizes.result(Outcomes(last)) > RESULT_CHARS && forall i | 0 <= i < |last| :: !last[i].Contents() && !last[i].Trimmable())
    ensures AllSmall(op, sizes, raws) && sizes.result(Outcomes(raws)) <= RESULT_CHARS ==> r == Some(raws)
  {
    var ds := Reserve(op, raws, sizes);
    rounds := [ds];
    while sizes.result(Outcomes(ds)) > RESULT_CHARS
      invariant Reducing(op, sizes, raws, ds, rounds)
      decreases TotalWeight(ds)
    {
      var next := Reduce(op, sizes, ds);
      ReducingGoesOn(op, sizes, raws, ds, rounds);
      if next.None? {
        return None, rounds;
      }
      ds := next.value;
      rounds := rounds + [ds];
    }
    return Some(ds), rounds;
  }

  /** What formatMeetingResult returns for outcomes that the parser accepts, the parser accepts. */
  lemma FittedIsAccepted(raws: seq<Draft>, ds: seq<Draft>)
    requires AllFitted(raws, ds) && Accepted(Outcomes(raws))
    ensures Accepted(Outcomes(ds))
  {
    forall i | 0 <= i < |ds| ensures AcceptedOutcome(Outcomes(ds)[i]) {
      assert AcceptedOutcome(Outcomes(raws)[i]);
      assert Fitted(raws[i], ds[i]) && (Sound(raws[i]) ==> Sound(ds[i]));
    }
  }
}
