/**
  packages/eliza-service/src/meeting-evidence.ts, bodySentences and broadBodyPassages: a body is laid out
  as one text, and what does not fit is sampled from its beginning, middle and end.
 */
module BroadPassages {
  import opened Collections
  import opened Numbers
  import opened Options

  const ITEMS := 12

  /** A decoded body item, and its place in the text of the whole body. Seconds stand for any time stamp. */
  datatype Item = Item(text: string, speaker: Option<string>, secs: Option<int>)

  datatype Sentence = Sentence(text: string, speaker: Option<string>, secs: Option<int>, start: nat, end: nat)

  datatype Segment = Segment(start: nat, end: nat, speaker: Option<string>, secs: Option<int>)

  datatype Passage = Passage(text: string, start: nat, end: nat, speaker: Option<string>, secs: Option<int>, truncated: bool)

  predicate Laid(ss: seq<Sentence>) {
    && (ss != [] ==> ss[0].start == 0)
    && (forall i | 0 <= i < |ss| :: ss[i].end == ss[i].start + |ss[i].text|)
    && (forall i | 0 <= i < |ss| - 1 :: ss[i + 1].start == ss[i].end + 1)
  }

  /** The end of the text of a laid out body. */
  function End(ss: seq<Sentence>): nat { if ss == [] then 0 else ss[|ss| - 1].end }

  /** The items joined by line breaks. */
  function Joined(ss: seq<Sentence>): string {
    if ss == [] then ""
    else if |ss| == 1 then ss[0].text
    else Joined(ss[..|ss| - 1]) + "\n" + ss[|ss| - 1].text
  }

  method BodySentences(items: seq<Item>) returns (ss: seq<Sentence>)
    ensures |ss| == |items| && Laid(ss)
    ensures forall i | 0 <= i < |items| :: ss[i].text == items[i].text && ss[i].speaker == items[i].speaker && ss[i].secs == items[i].secs
  {
    ss := [];
    var offset := 0;
    for i := 0 to |items|
      invariant |ss| == i && Laid(ss) && offset == (if i == 0 then 0 else End(ss) + 1)
      invariant forall k | 0 <= k < i :: ss[k].text == items[k].text && ss[k].speaker == items[k].speaker && ss[k].secs == items[k].secs
    {
      var start := offset;
      offset := offset + |items[i].text| + 1;
      ss := ss + [Sentence(items[i].text, items[i].speaker, items[i].secs, start, start + |items[i].text|)];
    }
  }

  lemma {:induction false} JoinedLength(ss: seq<Sentence>)
    requires Laid(ss)
    ensures |Joined(ss)| == End(ss)
  {
    if |ss| > 1 { JoinedLength(ss[..|ss| - 1]); }
  }

  lemma JoinedLast(ss: seq<Sentence>)
    requires Laid(ss) && |ss| > 1
    ensures var front, last := ss[..|ss| - 1], ss[|ss| - 1];
      && Laid(front) && last.start == |Joined(front)| + 1 && last.end == |Joined(ss)|
      && Joined(ss)[..|Joined(front)|] == Joined(front) && Joined(ss)[last.start..last.end] == last.text
  {
    JoinedLength(ss);
    JoinedLength(ss[..|ss| - 1]);
  }

  /** The joined text has each item at its offsets. */
  lemma {:induction false} JoinedAt(ss: seq<Sentence>, i: nat)
    requires Laid(ss) && i < |ss|
    ensures |Joined(ss)| == End(ss) && ss[i].end <= End(ss) && Joined(ss)[ss[i].start..ss[i].end] == ss[i].text
  {
    JoinedLength(ss);
    if |ss| > 1 {
      JoinedLast(ss);
      var front := ss[..|ss| - 1];
      if i < |front| {
        JoinedAt(front, i);
        assert Joined(ss)[..|Joined(front)|][ss[i].start..ss[i].end] == Joined(ss)[ss[i].start..ss[i].end];
      }
    }
  }

  predicate Unattributed(speaker: Option<string>, secs: Option<int>) { speaker.None? && secs.None? }

  /** The segments of a body: adjacent items without attribution become one. */
  function Segments(ss: seq<Sentence>): seq<Segment> {
    if ss == [] then []
    else
      var segs, s := Segments(ss[..|ss| - 1]), ss[|ss| - 1];
      if segs != [] && Unattributed(segs[|segs| - 1].speaker, segs[|segs| - 1].secs) && Unattributed(s.speaker, s.secs)
      then segs[|segs| - 1 := segs[|segs| - 1].(end := s.end)]
      else segs + [Segment(s.start, s.end, s.speaker, s.secs)]
  }

  /** Segments are in order, apart from each other, and cover the text but for the breaks between them. */
  predicate Tiled(segs: seq<Segment>, end: nat) {
    && (segs != [] ==> segs[0].start == 0 && segs[|segs| - 1].end == end)
    && (forall i | 0 <= i < |segs| :: segs[i].start <= segs[i].end)
    && (forall i | 0 <= i < |segs| - 1 :: segs[i + 1].start == segs[i].end + 1)
  }

  lemma {:induction false} SegmentsTile(ss: seq<Sentence>)
    requires Laid(ss)
    ensures Tiled(Segments(ss), End(ss)) && (Segments(ss) == [] <==> ss == [])
  {
    if ss != [] {
      SegmentsTile(ss[..|ss| - 1]);
    }
  }

  /** No attribution is merged away: every attributed sentence is a segment, and every attributed segment a sentence. */
  lemma {:induction false} AttributionKept(ss: seq<Sentence>)
    ensures forall s | s in ss && !Unattributed(s.speaker, s.secs) :: Segment(s.start, s.end, s.speaker, s.secs) in Segments(ss)
    ensures forall g | g in Segments(ss) && !Unattributed(g.speaker, g.secs) ::
      exists s :: s in ss && g == Segment(s.start, s.end, s.speaker, s.secs)
  {
    if ss != [] {
      var front, last := ss[..|ss| - 1], ss[|ss| - 1];
      AttributionKept(front);
      var segs, all := Segments(front), Segments(ss);
      forall s | s in ss && !Unattributed(s.speaker, s.secs) ensures Segment(s.start, s.end, s.speaker, s.secs) in all {
        if s in front {
          var g := Segment(s.start, s.end, s.speaker, s.secs);
          var k :| 0 <= k < |segs| && segs[k] == g;
          assert all[k] == g;
        } else {
          assert s == last;
          assert all[|all| - 1] == Segment(s.start, s.end, s.speaker, s.secs);
        }
      }
      forall g | g in all && !Unattributed(g.speaker, g.secs) ensures exists s :: s in ss && g == Segment(s.start, s.end, s.speaker, s.secs) {
        if g in segs {
          var s :| s in front && g == Segment(s.start, s.end, s.speaker, s.secs);
          assert s in ss;
        } else {
          assert last in ss;
        }
      }
    }
  }

  predicate Plain(g: Segment) { Unattributed(g.speaker, g.secs) }

  predicate PlainPair(segs: seq<Segment>, i: nat) { i + 1 < |segs| && Plain(segs[i]) && Plain(segs[i + 1]) }

  /** All plain text between two attributed items is one segment. */
  lemma {:induction false} PlainIsMerged(ss: seq<Sentence>, i: nat)
    ensures !PlainPair(Segments(ss), i)
  {
    if ss != [] {
      PlainIsMerged(ss[..|ss| - 1], i);
    }
  }

  predicate Overlaps(g: Segment, from: nat, to: nat) { g.end > from && g.start < to }

  function Candidates(segs: seq<Segment>, from: nat, to: nat): seq<Segment> {
    if segs == [] then []
    else Candidates(segs[..|segs| - 1], from, to) + if Overlaps(segs[|segs| - 1], from, to) then [segs[|segs| - 1]] else []
  }

  predicate Apart(segs: seq<Segment>) {
    && (forall i | 0 <= i < |segs| :: segs[i].start <= segs[i].end)
    && (forall i, j | 0 <= i < j < |segs| :: segs[i].end < segs[j].start)
  }

  lemma {:induction false} TiledApart(segs: seq<Segment>, end: nat, i: nat, j: nat)
    requires Tiled(segs, end) && i < j < |segs|
    ensures segs[i].end < segs[j].start
    decreases j
  {
    if i < j - 1 {
      TiledApart(segs, end, i, j - 1);
    }
  }

  lemma {:induction false} CandidatesIn(segs: seq<Segment>, from: nat, to: nat)
    ensures |Candidates(segs, from, to)| <= |segs|
    ensures forall g :: g in Candidates(segs, from, to) <==> g in segs && Overlaps(g, from, to)
  {
    if segs != [] {
      CandidatesIn(segs[..|segs| - 1], from, to);
      FrontAndLast(segs);
    }
  }

  lemma ApartBehind(segs: seq<Segment>, g: Segment)
    requires Apart(segs) && g.start <= g.end && forall x | x in segs :: x.end < g.start
    ensures Apart(segs + [g])
  {
    assert forall k | 0 <= k < |segs| :: segs[k] in segs;
  }

  lemma {:induction false} CandidatesApart(segs: seq<Segment>, from: nat, to: nat)
    requires Apart(segs)
    ensures Apart(Candidates(segs, from, to))
  {
    if segs != [] {
      var front, last := segs[..|segs| - 1], segs[|segs| - 1];
      CandidatesApart(front, from, to);
      CandidatesIn(front, from, to);
      forall g | g in Candidates(front, from, to) ensures g.end < last.start {
        var k :| 0 <= k < |front| && front[k] == g;
        assert segs[k] == g;
      }
      ApartBehind(Candidates(front, from, to), last);
    }
  }

  lemma CandidatesAre(segs: seq<Segment>, from: nat, to: nat)
    requires Apart(segs)
    ensures Apart(Candidates(segs, from, to)) && |Candidates(segs, from, to)| <= |segs|
    ensures forall g :: g in Candidates(segs, from, to) <==> g in segs && Overlaps(g, from, to)
  {
    CandidatesIn(segs, from, to);
    CandidatesApart(segs, from, to);
  }

  /** Math.round of i (n - 1) / (p - 1). */
  function Sample(i: nat, n: nat, p: nat): nat
    requires n >= 1 && p >= 2
  {
    (2 * (i * (n - 1)) + (p - 1)) / (2 * (p - 1))
  }

  function Indices(n: nat, p: nat): seq<nat>
    requires p >= 2
  {
    if n <= p then seq(n, i => i) else seq(p, i requires 0 <= i => Sample(i, n, p))
  }

  lemma Times(x: nat, y: nat, d: nat)
    requires x <= y
    ensures d * x <= d * y
  {
  }

  lemma DivBounds(a: nat, d: nat)
    requires d > 0
    ensures d * (a / d) <= a < d * (a / d) + d
  {
  }

  lemma DivAdd(a: nat, b: nat, d: nat)
    requires d > 0 && b >= a + d
    ensures b / d >= a / d + 1
  {
    DivBounds(a, d);
    DivBounds(b, d);
    if b / d <= a / d { Times(b / d, a / d, d); }
  }

  lemma DivExact(m: nat, r: nat, d: nat)
    requires r < d
    ensures (d * m + r) / d == m
  {
    var q := (d * m + r) / d;
    DivBounds(d * m + r, d);
    if q < m { Times(q + 1, m, d); }
    if q > m { Times(m + 1, q, d); }
  }

  /** The samples are strictly increasing and include both ends. */
  lemma SamplesSpread(n: nat, p: nat, i: nat)
    requires n > p >= 2 && i < p - 1
    ensures Sample(i, n, p) < Sample(i + 1, n, p)
  {
    var d := 2 * (p - 1);
    assert (i + 1) * (n - 1) == i * (n - 1) + (n - 1);
    DivAdd(2 * (i * (n - 1)) + (p - 1), 2 * ((i + 1) * (n - 1)) + (p - 1), d);
  }

  lemma SampleEnds(n: nat, p: nat)
    requires n > p >= 2
    ensures Sample(0, n, p) == 0 && Sample(p - 1, n, p) == n - 1
  {
    var d, q := 2 * (p - 1), p - 1;
    assert 2 * (q * (n - 1)) + q == d * (n - 1) + q by { assert d * (n - 1) == 2 * (q * (n - 1)); }
    DivExact(n - 1, q, d);
  }

  /** Each sample is the candidate nearest to its even share of the way. */
  lemma SampleIsNearest(i: nat, n: nat, p: nat)
    requires n >= 1 && p >= 2
    ensures 2 * (i * (n - 1)) - (p - 1) < 2 * (p - 1) * Sample(i, n, p) <= 2 * (i * (n - 1)) + (p - 1)
  {
    DivBounds(2 * (i * (n - 1)) + (p - 1), 2 * (p - 1));
  }

  predicate Increasing(xs: seq<nat>, n: nat) {
    && (forall i | 0 <= i < |xs| :: xs[i] < n)
    && (forall i, j | 0 <= i < j < |xs| :: xs[i] < xs[j])
  }

  lemma {:induction false} SamplesIncrease(n: nat, p: nat, i: nat, j: nat)
    requires n > p >= 2 && i < j < p
    ensures Sample(i, n, p) < Sample(j, n, p)
    decreases j
  {
    if i < j - 1 {
      SamplesIncrease(n, p, i, j - 1);
    }
    SamplesSpread(n, p, j - 1);
  }

  lemma IndicesSpread(n: nat, p: nat)
    requires p >= 2
    ensures Increasing(Indices(n, p), n) && |Indices(n, p)| == (if n <= p then n else p)
    ensures n > 0 ==> Indices(n, p)[0] == 0 && Indices(n, p)[|Indices(n, p)| - 1] == n - 1
  {
    if n > p {
      SampleEnds(n, p);
      forall i, j | 0 <= i < j < p ensures Sample(i, n, p) < Sample(j, n, p) { SamplesIncrease(n, p, i, j); }
      forall i | 0 <= i < p ensures Sample(i, n, p) < n { if i < p - 1 { SamplesIncrease(n, p, i, p - 1); } }
    }
  }

  function Slice(t: string, start: int, end: int): string {
    if 0 <= start <= Min(end, |t|) then t[start..Min(end, |t|)] else ""
  }

  /** The part of a segment that lies in a window. */
  function Clip(text: string, g: Segment, from: nat, to: nat): Passage {
    var start, end := Max(g.start, from), if g.end <= to then g.end else to;
    Passage(Slice(text, start, end), start, end, g.speaker, g.secs, start > g.start || end < g.end)
  }

  /** All candidates, or a sample of them. */
  function Sampled(cs: seq<Segment>, per: nat): seq<Segment>
    requires per >= 2
  {
    IndicesSpread(|cs|, per);
    var xs := Indices(|cs|, per);
    seq(|xs|, k requires 0 <= k < |xs| => cs[xs[k]])
  }

  predicate Inside(text: string, segs: seq<Segment>) { Apart(segs) && forall i | 0 <= i < |segs| :: segs[i].end <= |text| }

  predicate Solid(segs: seq<Segment>) { forall i | 0 <= i < |segs| :: segs[i].start < segs[i].end }

  /** The passages of one window. */
  function Window(text: string, segs: seq<Segment>, from: nat, to: nat, per: nat): seq<Passage>
    requires per >= 2
  {
    var gs := Sampled(Candidates(segs, from, to), per);
    seq(|gs|, k requires 0 <= k < |gs| => Clip(text, gs[k], from, to))
  }

  /** Passages in order and apart from each other, within [from, to). */
  predicate Ordered(ps: seq<Passage>, from: int, to: int) {
    && (forall i | 0 <= i < |ps| :: from <= ps[i].start <= ps[i].end <= to)
    && (forall i, j | 0 <= i < j < |ps| :: ps[i].end <= ps[j].start)
  }

  predicate CutFrom(text: string, g: Segment, p: Passage) {
    && g.start <= p.start <= p.end <= g.end && p.end <= |text| && p.text == text[p.start..p.end]
    && p.speaker == g.speaker && p.secs == g.secs && p.truncated == (p.start > g.start || p.end < g.end)
  }

  /** A passage is exactly the text at its offsets, within one segment whose attribution it has. */
  ghost predicate Exact(text: string, segs: seq<Segment>, p: Passage) { exists g :: g in segs && CutFrom(text, g, p) }

  ghost predicate Faithful(text: string, segs: seq<Segment>, ps: seq<Passage>) {
    forall p | p in ps :: Exact(text, segs, p) && (Solid(segs) ==> p.text != "")
  }

  lemma ClipIs(text: string, segs: seq<Segment>, g: Segment, from: nat, to: nat)
    requires Inside(text, segs) && g in segs && Overlaps(g, from, to) && from < to <= |text|
    ensures var p := Clip(text, g, from, to);
      g.start <= p.start <= p.end <= g.end && from <= p.start && p.end <= to && CutFrom(text, g, p)
  {
  }

  lemma SampledAre(segs: seq<Segment>, from: nat, to: nat, per: nat)
    requires Apart(segs) && per >= 2
    ensures var gs := Sampled(Candidates(segs, from, to), per);
      |gs| <= per && Apart(gs) && forall g | g in gs :: g in segs && Overlaps(g, from, to)
  {
    CandidatesAre(segs, from, to);
    var cs := Candidates(segs, from, to);
    IndicesSpread(|cs|, per);
    var gs := Sampled(cs, per);
    assert forall k | 0 <= k < |gs| :: gs[k] == cs[Indices(|cs|, per)[k]];
  }

  lemma WindowIs(text: string, segs: seq<Segment>, from: nat, to: nat, per: nat)
    requires Inside(text, segs) && from < to <= |text| && per >= 2
    ensures Ordered(Window(text, segs, from, to, per), from, to) && |Window(text, segs, from, to, per)| <= per
    ensures Faithful(text, segs, Window(text, segs, from, to, per))
  {
    SampledAre(segs, from, to, per);
    var gs, ps := Sampled(Candidates(segs, from, to), per), Window(text, segs, from, to, per);
    forall k | 0 <= k < |ps|
      ensures from <= ps[k].start <= ps[k].end <= to && gs[k].start <= ps[k].start && ps[k].end <= gs[k].end
      ensures Exact(text, segs, ps[k]) && (Solid(segs) ==> ps[k].text != "")
    {
      assert gs[k] in gs;
      ClipIs(text, segs, gs[k], from, to);
    }
  }

  function Total(ps: seq<Passage>): nat { if ps == [] then 0 else Total(ps[..|ps| - 1]) + |ps[|ps| - 1].text| }

  lemma {:induction false} TotalAppend(a: seq<Passage>, b: seq<Passage>)
    ensures Total(a + b) == Total(a) + Total(b)
    decreases |b|
  {
    if b == [] {
      assert a + b == a;
    } else {
      TotalAppend(a, b[..|b| - 1]);
      assert (a + b)[..|a + b| - 1] == a + b[..|b| - 1];
    }
  }

  /** Passages apart from each other within an interval are together no longer than the interval. */
  lemma {:induction false} OrderedFits(text: string, segs: seq<Segment>, ps: seq<Passage>, from: int, to: int)
    requires from <= to && Ordered(ps, from, to) && Faithful(text, segs, ps)
    ensures Total(ps) <= to - from
    decreases |ps|
  {
    if ps != [] {
      var front, last := ps[..|ps| - 1], ps[|ps| - 1];
      assert last in ps && Exact(text, segs, last);
      OrderedFits(text, segs, front, from, last.start);
    }
  }

  function Windows(text: string, segs: seq<Segment>, starts: seq<nat>, width: nat, per: nat): seq<seq<Passage>>
    requires per >= 2
  {
    seq(|starts|, i requires 0 <= i < |starts| => Window(text, segs, starts[i], starts[i] + width, per))
  }

  function Flatten(ls: seq<seq<Passage>>): seq<Passage> { if ls == [] then [] else Flatten(ls[..|ls| - 1]) + ls[|ls| - 1] }

  /** How many candidates of the windows are not among the passages. */
  function Omitted(segs: seq<Segment>, starts: seq<nat>, width: nat, per: nat): nat {
    if starts == [] then 0
    else
      var start := starts[|starts| - 1];
      Omitted(segs, starts[..|starts| - 1], width, per) + LeftOut(|Candidates(segs, start, start + width)|, per)
  }

  function LeftOut(n: nat, per: nat): nat { if n <= per then 0 else n - per }

  function Width(length: nat, available: nat): nat { if length > available then available / 3 else length }

  function Starts(length: nat, available: nat): (starts: seq<nat>)
    ensures |starts| <= 3 && forall i | 0 <= i < |starts| :: starts[i] + Width(length, available) <= length
  {
    var width := Width(length, available);
    if width == 0 then [] else if length <= available then [0] else [0, (length - width) / 2, length - width]
  }

  function Per(starts: seq<nat>): nat { ITEMS / Max(1, |starts|) }

  predicate Consecutive(starts: seq<nat>, width: nat, end: nat) {
    && (forall i | 0 <= i < |starts| :: starts[i] + width <= end)
    && (forall i | 0 <= i < |starts| - 1 :: starts[i] + width <= starts[i + 1])
  }

  lemma OrderedAppend(a: seq<Passage>, b: seq<Passage>, mid: int, from: int, to: int)
    requires Ordered(a, 0, mid) && Ordered(b, from, to) && 0 <= mid <= from <= to
    ensures Ordered(a + b, 0, to)
  {
  }

  /** Windows that follow each other give passages that follow each other. */
  lemma {:induction false} FlattenOrdered(ls: seq<seq<Passage>>, starts: seq<nat>, width: nat, end: nat)
    requires |ls| == |starts| && Consecutive(starts, width, end)
    requires forall i | 0 <= i < |ls| :: Ordered(ls[i], starts[i], starts[i] + width)
    ensures Ordered(Flatten(ls), 0, if ls == [] then 0 else starts[|starts| - 1] + width)
  {
    if ls != [] {
      var n := |ls| - 1;
      FlattenOrdered(ls[..n], starts[..n], width, end);
      OrderedAppend(Flatten(ls[..n]), ls[n], if n == 0 then 0 else starts[n - 1] + width, starts[n], starts[n] + width);
    }
  }

  lemma {:induction false} FlattenFaithful(text: string, segs: seq<Segment>, ls: seq<seq<Passage>>)
    requires forall i | 0 <= i < |ls| :: Faithful(text, segs, ls[i])
    ensures Faithful(text, segs, Flatten(ls))
  {
    if ls != [] {
      FlattenFaithful(text, segs, ls[..|ls| - 1]);
      assert Faithful(text, segs, ls[|ls| - 1]);
    }
  }

  /** x added n times. */
  function Add(x: nat, n: nat): nat { if n == 0 then 0 else Add(x, n - 1) + x }

  lemma {:induction false} FlattenFits(ls: seq<seq<Passage>>, per: nat, width: nat)
    requires forall i | 0 <= i < |ls| :: |ls[i]| <= per && Total(ls[i]) <= width
    ensures |Flatten(ls)| <= Add(per, |ls|) && Total(Flatten(ls)) <= Add(width, |ls|)
  {
    if ls != [] {
      FlattenFits(ls[..|ls| - 1], per, width);
      TotalAppend(Flatten(ls[..|ls| - 1]), ls[|ls| - 1]);
    }
  }

  lemma WindowFits(text: string, segs: seq<Segment>, from: nat, to: nat, per: nat)
    requires Inside(text, segs) && from < to <= |text| && per >= 2
    ensures |Window(text, segs, from, to, per)| <= per && Total(Window(text, segs, from, to, per)) <= to - from
  {
    WindowIs(text, segs, from, to, per);
    OrderedFits(text, segs, Window(text, segs, from, to, per), from, to);
  }

  lemma WindowsOrdered(text: string, segs: seq<Segment>, starts: seq<nat>, width: nat, per: nat)
    requires Inside(text, segs) && per >= 2 && width > 0 && Consecutive(starts, width, |text|)
    ensures Ordered(Flatten(Windows(text, segs, starts, width, per)), 0, |text|)
  {
    var ls := Windows(text, segs, starts, width, per);
    forall i | 0 <= i < |ls| ensures Ordered(ls[i], starts[i], starts[i] + width) {
      WindowAt(text, segs, starts, width, per, i);
      WindowIs(text, segs, starts[i], starts[i] + width, per);
    }
    FlattenOrdered(ls, starts, width, |text|);
  }

  lemma WindowsFaithful(text: string, segs: seq<Segment>, starts: seq<nat>, width: nat, per: nat)
    requires Inside(text, segs) && per >= 2 && width > 0 && Consecutive(starts, width, |text|)
    ensures Faithful(text, segs, Flatten(Windows(text, segs, starts, width, per)))
  {
    var ls := Windows(text, segs, starts, width, per);
    forall i | 0 <= i < |ls| ensures Faithful(text, segs, ls[i]) {
      WindowIs(text, segs, starts[i], starts[i] + width, per);
    }
    FlattenFaithful(text, segs, ls);
  }

  lemma WindowsFit(text: string, segs: seq<Segment>, starts: seq<nat>, width: nat, per: nat)
    requires Inside(text, segs) && per >= 2 && width > 0 && Consecutive(starts, width, |text|)
    ensures var ps := Flatten(Windows(text, segs, starts, width, per)); |ps| <= Add(per, |starts|) && Total(ps) <= Add(width, |starts|)
  {
    var ls := Windows(text, segs, starts, width, per);
    forall i | 0 <= i < |ls| ensures |ls[i]| <= per && Total(ls[i]) <= width {
      WindowFits(text, segs, starts[i], starts[i] + width, per);
    }
    FlattenFits(ls, per, width);
  }

  lemma AddThrice(x: nat)
    ensures Add(x, 0) == 0 && Add(x, 1) == x && Add(x, 3) == x + x + x
  {
    assert Add(x, 1) == Add(x, 0) + x && Add(x, 2) == Add(x, 1) + x;
  }

  lemma StartsAre(length: nat, available: nat)
    ensures var starts, width := Starts(length, available), Width(length, available);
      && Consecutive(starts, width, length) && Per(starts) >= 2
      && Add(Per(starts), |starts|) <= ITEMS && Add(width, |starts|) <= available
      && (starts != [] ==> width > 0 && starts[0] == 0 && starts[|starts| - 1] + width == length)
      && (starts == [] <==> length == 0 || (length > available && available < 3))
  {
    var starts, width := Starts(length, available), Width(length, available);
    AddThrice(width);
    AddThrice(Per(starts));
  }

  lemma SegmentsInside(ss: seq<Sentence>)
    requires Laid(ss)
    ensures |Joined(ss)| == End(ss) && Inside(Joined(ss), Segments(ss)) && Tiled(Segments(ss), End(ss))
  {
    var segs := Segments(ss);
    SegmentsTile(ss);
    if ss != [] { JoinedAt(ss, 0); }
    forall i, j | 0 <= i < j < |segs| ensures segs[i].end < segs[j].start { TiledApart(segs, End(ss), i, j); }
    forall i | 0 <= i < |segs| ensures segs[i].end <= End(ss) { if i < |segs| - 1 { TiledApart(segs, End(ss), i, |segs| - 1); } }
  }

  datatype Broad = Broad(passages: seq<Passage>, omitted: nat, excerpted: bool)

  function BroadOf(ss: seq<Sentence>, available: nat): Broad
    requires Laid(ss)
  {
    SegmentsInside(ss);
    var text, segs := Joined(ss), Segments(ss);
    StartsAre(|text|, available);
    var starts, width := Starts(|text|, available), Width(|text|, available);
    Broad(Flatten(Windows(text, segs, starts, width, Per(starts))), Omitted(segs, starts, width, Per(starts)), |text| > available)
  }

  /**
    At most 12 passages, together no longer than `available`, in order and apart from each other; each is
    exactly the text at its offsets, inside one segment and with its attribution.
   */
  lemma BroadFits(ss: seq<Sentence>, available: nat)
    requires Laid(ss)
    ensures var b := BroadOf(ss, available);
      && |b.passages| <= ITEMS && Total(b.passages) <= available
      && Ordered(b.passages, 0, End(ss)) && Faithful(Joined(ss), Segments(ss), b.passages)
  {
    SegmentsInside(ss);
    var text, segs := Joined(ss), Segments(ss);
    StartsAre(|text|, available);
    var starts, width := Starts(|text|, available), Width(|text|, available);
    if starts != [] {
      WindowsOrdered(text, segs, starts, width, Per(starts));
      WindowsFaithful(text, segs, starts, width, Per(starts));
      WindowsFit(text, segs, starts, width, Per(starts));
    }
  }

  /** The first and the last segment, where they overlap the window, are its first and last candidates. */
  lemma {:induction false} CandidateEnds(segs: seq<Segment>, from: nat, to: nat)
    requires segs != []
    ensures var cs := Candidates(segs, from, to);
      && (Overlaps(segs[0], from, to) ==> cs != [] && cs[0] == segs[0])
      && (Overlaps(segs[|segs| - 1], from, to) ==> cs != [] && cs[|cs| - 1] == segs[|segs| - 1])
  {
    if |segs| > 1 {
      CandidateEnds(segs[..|segs| - 1], from, to);
    }
  }

  /** Sampling keeps the first and the last candidate. */
  lemma WindowEnds(text: string, segs: seq<Segment>, from: nat, to: nat, per: nat)
    requires per >= 2 && segs != []
    ensures var ps := Window(text, segs, from, to, per);
      && (Overlaps(segs[0], from, to) ==> ps != [] && ps[0] == Clip(text, segs[0], from, to))
      && (Overlaps(segs[|segs| - 1], from, to) ==> ps != [] && ps[|ps| - 1] == Clip(text, segs[|segs| - 1], from, to))
  {
    CandidateEnds(segs, from, to);
    IndicesSpread(|Candidates(segs, from, to)|, per);
  }

  lemma {:induction false} FlattenEnds(ls: seq<seq<Passage>>)
    requires ls != [] && ls[0] != [] && ls[|ls| - 1] != []
    ensures var ps := Flatten(ls); ps != [] && ps[0] == ls[0][0] && ps[|ps| - 1] == ls[|ls| - 1][|ls[|ls| - 1]| - 1]
  {
    FlattenStarts(ls);
  }

  lemma {:induction false} FlattenStarts(ls: seq<seq<Passage>>)
    requires ls != [] && ls[0] != []
    ensures Flatten(ls) != [] && Flatten(ls)[0] == ls[0][0]
  {
    if |ls| == 1 {
      assert Flatten(ls[..0]) == [];
    } else {
      FlattenStarts(ls[..|ls| - 1]);
    }
  }

  lemma FirstOfWindow(text: string, segs: seq<Segment>, to: nat, per: nat)
    requires per >= 2 && segs != [] && to > 0 && segs[0].start == 0 < segs[0].end
    ensures var ps := Window(text, segs, 0, to, per); ps != [] && ps[0].start == 0
  {
    WindowEnds(text, segs, 0, to, per);
  }

  lemma LastOfWindow(text: string, segs: seq<Segment>, from: nat, to: nat, per: nat)
    requires per >= 2 && segs != [] && from < to && segs[|segs| - 1].start < segs[|segs| - 1].end == to
    ensures var ps := Window(text, segs, from, to, per); ps != [] && ps[|ps| - 1].end == to
  {
    WindowEnds(text, segs, from, to, per);
  }

  predicate StartsAtZero(ps: seq<Passage>) { ps != [] && ps[0].start == 0 }

  predicate EndsAt(ps: seq<Passage>, n: nat) { ps != [] && ps[|ps| - 1].end == n }

  lemma WindowAt(text: string, segs: seq<Segment>, starts: seq<nat>, width: nat, per: nat, i: nat)
    requires per >= 2 && i < |starts|
    ensures Windows(text, segs, starts, width, per)[i] == Window(text, segs, starts[i], starts[i] + width, per)
  {
  }

  lemma WindowsStart(text: string, segs: seq<Segment>, starts: seq<nat>, width: nat, per: nat)
    requires per >= 2 && segs != [] && starts != [] && starts[0] == 0 && width > 0 && segs[0].start == 0 < segs[0].end
    ensures StartsAtZero(Windows(text, segs, starts, width, per)[0])
  {
    FirstOfWindow(text, segs, width, per);
    WindowAt(text, segs, starts, width, per, 0);
  }

  lemma WindowEndsAt(text: string, segs: seq<Segment>, from: nat, to: nat, per: nat)
    requires per >= 2 && segs != [] && from < to && segs[|segs| - 1].start < segs[|segs| - 1].end == to
    ensures EndsAt(Window(text, segs, from, to, per), to)
  {
    LastOfWindow(text, segs, from, to, per);
  }

  lemma WindowsEnd(text: string, segs: seq<Segment>, starts: seq<nat>, width: nat, per: nat)
    requires per >= 2 && segs != [] && starts != [] && width > 0
    requires segs[|segs| - 1].start < segs[|segs| - 1].end == starts[|starts| - 1] + width
    ensures EndsAt(Windows(text, segs, starts, width, per)[|starts| - 1], starts[|starts| - 1] + width)
  {
    var last := starts[|starts| - 1];
    WindowEndsAt(text, segs, last, last + width, per);
    WindowAt(text, segs, starts, width, per, |starts| - 1);
  }

  /** Every item of the body has text, as the decoder sees to. */
  predicate Worded(ss: seq<Sentence>) { forall i | 0 <= i < |ss| :: ss[i].text != "" }

  lemma {:induction false} WordedIsSolid(ss: seq<Sentence>)
    requires Laid(ss) && Worded(ss)
    ensures Solid(Segments(ss))
  {
    if ss != [] {
      var front := ss[..|ss| - 1];
      WordedIsSolid(front);
      SegmentsTile(front);
    }
  }

  lemma SolidHasEnds(ss: seq<Sentence>, available: nat)
    requires Laid(ss) && ss != [] && Solid(Segments(ss)) && (End(ss) <= available || available >= 3)
    ensures var ps := BroadOf(ss, available).passages; ps != [] && ps[0].start == 0 && ps[|ps| - 1].end == End(ss)
  {
    SegmentsInside(ss);
    SegmentsTile(ss);
    var text, segs := Joined(ss), Segments(ss);
    StartsAre(|text|, available);
    var starts, width := Starts(|text|, available), Width(|text|, available);
    WindowsStart(text, segs, starts, width, Per(starts));
    WindowsEnd(text, segs, starts, width, Per(starts));
    FlattenEnds(Windows(text, segs, starts, width, Per(starts)));
  }

  /** Both ends of the text are always among the passages. */
  lemma BroadHasEnds(ss: seq<Sentence>, available: nat)
    requires Laid(ss) && ss != [] && Worded(ss) && (End(ss) <= available || available >= 3)
    ensures var ps := BroadOf(ss, available).passages; ps != [] && ps[0].start == 0 && ps[|ps| - 1].end == End(ss)
  {
    WordedIsSolid(ss);
    SolidHasEnds(ss, available);
  }

  // ── Where the windows stand ────────────────────────────────────────────────

  /** A text that is too long is seen through three windows of a third of the room each: its beginning, its middle and its end. */
  lemma WindowsStand(length: nat, available: nat)
    requires length > available >= 3
    ensures var starts, width := Starts(length, available), Width(length, available);
      && 3 * width <= available < 3 * (width + 1)
      && |starts| == 3 && Per(starts) == 4 && starts[0] == 0 && starts[2] + width == length
      && 2 * starts[1] <= length - width <= 2 * starts[1] + 1
  {
  }

  lemma ThreeStarts(length: nat, available: nat) returns (middle: nat)
    requires length > available >= 3
    ensures var width := Width(length, available);
      && Starts(length, available) == [0, middle, length - width] && Per(Starts(length, available)) == 4
      && 3 * width <= available < 3 * (width + 1) && 2 * middle <= length - width <= 2 * middle + 1
  {
    WindowsStand(length, available);
    middle := Starts(length, available)[1];
  }

  lemma WindowSize(text: string, segs: seq<Segment>, from: nat, to: nat, per: nat)
    requires per >= 2
    ensures |Window(text, segs, from, to, per)| == Min(|Candidates(segs, from, to)|, per)
    ensures |Window(text, segs, from, to, per)| + LeftOut(|Candidates(segs, from, to)|, per) == |Candidates(segs, from, to)|
  {
    IndicesSpread(|Candidates(segs, from, to)|, per);
  }

  /** A window with no more candidates than it may have passages shows its part of every segment that reaches into it. */
  lemma WindowCovers(text: string, segs: seq<Segment>, from: nat, to: nat, per: nat, g: Segment)
    requires per >= 2 && |Candidates(segs, from, to)| <= per && g in segs && g.end > from && g.start < to
    ensures Clip(text, g, from, to) in Window(text, segs, from, to, per)
  {
    CandidatesIn(segs, from, to);
    var cs := Candidates(segs, from, to);
    SampledAll(cs, per);
    var k :| 0 <= k < |cs| && cs[k] == g;
    ClippedAt(text, segs, from, to, per, k);
  }

  lemma ClippedAt(text: string, segs: seq<Segment>, from: nat, to: nat, per: nat, k: nat)
    requires per >= 2 && k < |Sampled(Candidates(segs, from, to), per)|
    ensures k < |Window(text, segs, from, to, per)|
    ensures Window(text, segs, from, to, per)[k] == Clip(text, Sampled(Candidates(segs, from, to), per)[k], from, to)
  {
  }

  lemma FlattenThree(ls: seq<seq<Passage>>)
    requires |ls| == 3
    ensures Flatten(ls) == ls[0] + ls[1] + ls[2]
  {
    assert ls[..2][..1] == ls[..1] && ls[..1][..0] == [];
    assert Flatten(ls[..1]) == [] + ls[0];
  }

  lemma OmittedThree(segs: seq<Segment>, starts: seq<nat>, width: nat, per: nat)
    requires |starts| == 3
    ensures Omitted(segs, starts, width, per) ==
              LeftOut(|Candidates(segs, starts[0], starts[0] + width)|, per) + LeftOut(|Candidates(segs, starts[1], starts[1] + width)|, per)
              + LeftOut(|Candidates(segs, starts[2], starts[2] + width)|, per)
  {
    assert starts[..2][..1] == starts[..1] && starts[..1][..0] == [];
    assert Omitted(segs, starts[..1], width, per) == LeftOut(|Candidates(segs, starts[0], starts[0] + width)|, per);
  }

  /** What three windows show, and how much of the segments that reach into them they leave out. */
  lemma ThreeWindowsAre(text: string, segs: seq<Segment>, width: nat, middle: nat, last: nat, per: nat)
    requires per >= 2
    ensures Flatten(Windows(text, segs, [0, middle, last], width, per)) ==
              Window(text, segs, 0, width, per) + Window(text, segs, middle, middle + width, per) + Window(text, segs, last, last + width, per)
  {
    FlattenThree(Windows(text, segs, [0, middle, last], width, per));
  }

  lemma ThreeWindowsOmit(text: string, segs: seq<Segment>, width: nat, middle: nat, last: nat, per: nat)
    requires per >= 2
    ensures Omitted(segs, [0, middle, last], width, per) + |Window(text, segs, 0, width, per)|
              + |Window(text, segs, middle, middle + width, per)| + |Window(text, segs, last, last + width, per)|
            == |Candidates(segs, 0, width)| + |Candidates(segs, middle, middle + width)| + |Candidates(segs, last, last + width)|
  {
    OmittedThree(segs, [0, middle, last], width, per);
    WindowSize(text, segs, 0, width, per);
    WindowSize(text, segs, middle, middle + width, per);
    WindowSize(text, segs, last, last + width, per);
  }

  lemma BroadParts(ss: seq<Sentence>, available: nat, starts: seq<nat>, width: nat)
    requires Laid(ss) && End(ss) > available && width == Width(End(ss), available)
    requires starts == Starts(End(ss), available) && Per(starts) == 4
    ensures BroadOf(ss, available) ==
              Broad(Flatten(Windows(Joined(ss), Segments(ss), starts, width, 4)), Omitted(Segments(ss), starts, width, 4), true)
  {
    SegmentsInside(ss);
  }

  /**
    A body that does not fit is shown through three windows of a third of the room each: from its start,
    around its middle to within one character, and up to its end. Each window has at most four passages,
    and what it does not show of the segments that reach into it is counted as omitted.
   */
  lemma BroadIsThreeWindows(ss: seq<Sentence>, available: nat) returns (width: nat, middle: nat)
    requires Laid(ss) && End(ss) > available >= 3
    ensures 3 * width <= available < 3 * (width + 1) && 2 * middle <= End(ss) - width <= 2 * middle + 1
    ensures var b, text, segs, last := BroadOf(ss, available), Joined(ss), Segments(ss), End(ss) - width;
      && b.excerpted
      && b.passages == Window(text, segs, 0, width, 4) + Window(text, segs, middle, middle + width, 4) + Window(text, segs, last, End(ss), 4)
      && b.omitted + |b.passages| ==
           |Candidates(segs, 0, width)| + |Candidates(segs, middle, middle + width)| + |Candidates(segs, last, End(ss))|
  {
    SegmentsInside(ss);
    var text, segs := Joined(ss), Segments(ss);
    width := Width(|text|, available);
    middle := ThreeStarts(|text|, available);
    BroadParts(ss, available, [0, middle, End(ss) - width], width);
    ThreeWindowsAre(text, segs, width, middle, End(ss) - width, 4);
    ThreeWindowsOmit(text, segs, width, middle, End(ss) - width, 4);
  }

  /** A body that fits is one window, with at most twelve passages. */
  lemma BroadIsOneWindow(ss: seq<Sentence>, available: nat)
    requires Laid(ss) && 0 < End(ss) <= available
    ensures var b, text, segs := BroadOf(ss, available), Joined(ss), Segments(ss);
      && !b.excerpted && b.passages == Window(text, segs, 0, End(ss), ITEMS)
      && b.omitted + |b.passages| == |Candidates(segs, 0, End(ss))|
  {
    SegmentsInside(ss);
    OneStart(ss, available);
    WindowSize(Joined(ss), Segments(ss), 0, End(ss), ITEMS);
  }

  lemma {:induction false} AllCandidates(segs: seq<Segment>, to: nat)
    requires forall i | 0 <= i < |segs| :: Overlaps(segs[i], 0, to)
    ensures Candidates(segs, 0, to) == segs
  {
    if segs != [] {
      AllCandidates(segs[..|segs| - 1], to);
    }
  }

  function Whole(text: string, g: Segment): Passage { Passage(Slice(text, g.start, g.end), g.start, g.end, g.speaker, g.secs, false) }

  lemma SampledAll(cs: seq<Segment>, per: nat)
    requires |cs| <= per && per >= 2
    ensures Sampled(cs, per) == cs
  {
  }

  lemma ClipWhole(text: string, g: Segment)
    requires g.start < g.end <= |text|
    ensures Overlaps(g, 0, |text|) && Clip(text, g, 0, |text|) == Whole(text, g)
  {
  }

  lemma WholeWindow(text: string, segs: seq<Segment>, per: nat)
    requires (forall i | 0 <= i < |segs| :: segs[i].start < segs[i].end <= |text|) && |segs| <= per && per >= 2
    ensures var ps := Window(text, segs, 0, |text|, per); |ps| == |segs| && forall i | 0 <= i < |segs| :: ps[i] == Whole(text, segs[i])
    ensures LeftOut(|Candidates(segs, 0, |text|)|, per) == 0
  {
    AllCandidates(segs, |text|);
    SampledAll(segs, per);
    forall i | 0 <= i < |segs| ensures Clip(text, segs[i], 0, |text|) == Whole(text, segs[i]) { ClipWhole(text, segs[i]); }
  }

  lemma OneStart(ss: seq<Sentence>, available: nat)
    requires Laid(ss) && ss != [] && 0 < End(ss) <= available
    ensures var text, segs := Joined(ss), Segments(ss);
      BroadOf(ss, available) == Broad(Window(text, segs, 0, |text|, ITEMS), LeftOut(|Candidates(segs, 0, |text|)|, ITEMS), false)
  {
    SegmentsInside(ss);
    OneWindowOnly(Joined(ss), Segments(ss));
  }

  lemma SolidIsWhole(ss: seq<Sentence>, available: nat)
    requires Laid(ss) && Solid(Segments(ss)) && End(ss) <= available && |Segments(ss)| <= ITEMS
    ensures var b, segs := BroadOf(ss, available), Segments(ss);
      && b.omitted == 0 && !b.excerpted && |b.passages| == |segs|
      && forall i | 0 <= i < |segs| :: b.passages[i] == Whole(Joined(ss), segs[i])
  {
    SegmentsInside(ss);
    SegmentsTile(ss);
    var segs := Segments(ss);
    if ss != [] {
      assert segs[|segs| - 1].end == End(ss) > 0;
      OneStart(ss, available);
      WholeWindow(Joined(ss), segs, ITEMS);
    }
  }

  /** A body that fits, in at most 12 segments, is given whole: a passage for every segment and nothing omitted. */
  lemma BroadIsWhole(ss: seq<Sentence>, available: nat)
    requires Laid(ss) && Worded(ss) && End(ss) <= available && |Segments(ss)| <= ITEMS
    ensures var b, segs := BroadOf(ss, available), Segments(ss);
      && b.omitted == 0 && !b.excerpted && |b.passages| == |segs|
      && forall i | 0 <= i < |segs| :: b.passages[i] == Whole(Joined(ss), segs[i])
  {
    WordedIsSolid(ss);
    SolidIsWhole(ss, available);
  }

  lemma OneWindowOnly(text: string, segs: seq<Segment>)
    ensures Flatten(Windows(text, segs, [0], |text|, ITEMS)) == Window(text, segs, 0, |text|, ITEMS)
    ensures Omitted(segs, [0], |text|, ITEMS) == LeftOut(|Candidates(segs, 0, |text|)|, ITEMS)
  {
    var ls := Windows(text, segs, [0], |text|, ITEMS);
    assert ls[..0] == [] && [0][..0] == [];
  }

  method Filter(segs: seq<Segment>, from: nat, to: nat) returns (cs: seq<Segment>)
    ensures cs == Candidates(segs, from, to)
  {
    cs := [];
    for i := 0 to |segs|
      invariant cs == Candidates(segs[..i], from, to)
    {
      assert segs[..i + 1][..i] == segs[..i];
      if Overlaps(segs[i], from, to) {
        cs := cs + [segs[i]];
      }
    }
    assert segs[..|segs|] == segs;
  }

  method OneWindow(text: string, segs: seq<Segment>, from: nat, to: nat, per: nat) returns (passages: seq<Passage>, omitted: nat)
    requires per >= 2
    ensures passages == Window(text, segs, from, to, per) && omitted == LeftOut(|Candidates(segs, from, to)|, per)
  {
    var candidates := Filter(segs, from, to);
    var indices := Indices(|candidates|, per);
    IndicesSpread(|candidates|, per);
    omitted := |candidates| - |indices|;
    passages := [];
    for k := 0 to |indices|
      invariant passages == Window(text, segs, from, to, per)[..k]
    {
      passages := passages + [Clip(text, candidates[indices[k]], from, to)];
    }
  }

  /** The windows' starting points, each once. */
  method WindowStarts(length: nat, available: nat) returns (starts: seq<nat>)
    ensures starts == Starts(length, available)
  {
    var width := Width(length, available);
    starts := [];
    if width > 0 {
      var wanted := if length > available then [0, (length - width) / 2, length - width] else [0];
      for i := 0 to |wanted|
        invariant starts == wanted[..i]
      {
        if wanted[i] !in starts {
          starts := starts + [wanted[i]];
        }
      }
    }
  }

  method MergeSegments(ss: seq<Sentence>) returns (segs: seq<Segment>)
    ensures segs == Segments(ss)
  {
    segs := [];
    for i := 0 to |ss|
      invariant segs == Segments(ss[..i])
    {
      assert ss[..i + 1][..i] == ss[..i];
      var s := ss[i];
      if segs != [] && Unattributed(segs[|segs| - 1].speaker, segs[|segs| - 1].secs) && Unattributed(s.speaker, s.secs) {
        segs := segs[|segs| - 1 := segs[|segs| - 1].(end := s.end)];
      } else {
        segs := segs + [Segment(s.start, s.end, s.speaker, s.secs)];
      }
    }
    assert ss[..|ss|] == ss;
  }

  method AllWindows(text: string, segs: seq<Segment>, starts: seq<nat>, width: nat, per: nat) returns (passages: seq<Passage>, omitted: nat)
    requires per >= 2
    ensures passages == Flatten(Windows(text, segs, starts, width, per)) && omitted == Omitted(segs, starts, width, per)
  {
    passages, omitted := [], 0;
    for i := 0 to |starts|
      invariant passages == Flatten(Windows(text, segs, starts[..i], width, per))
      invariant omitted == Omitted(segs, starts[..i], width, per)
    {
      var ps, left := OneWindow(text, segs, starts[i], starts[i] + width, per);
      WindowsNext(text, segs, starts, i, width, per);
      passages, omitted := passages + ps, omitted + left;
    }
    assert starts[..|starts|] == starts;
  }

  method BroadBodyPassages(ss: seq<Sentence>, available: nat) returns (passages: seq<Passage>, omitted: nat, excerpted: bool)
    requires Laid(ss)
    ensures Broad(passages, omitted, excerpted) == BroadOf(ss, available)
  {
    var text := Joined(ss);
    var segs := MergeSegments(ss);
    excerpted := |text| > available;
    var width := Width(|text|, available);
    var starts := WindowStarts(|text|, available);
    StartsAre(|text|, available);
    passages, omitted := AllWindows(text, segs, starts, width, Per(starts));
  }

  lemma WindowsNext(text: string, segs: seq<Segment>, starts: seq<nat>, i: nat, width: nat, per: nat)
    requires per >= 2 && i < |starts|
    ensures Flatten(Windows(text, segs, starts[..i + 1], width, per)) ==
            Flatten(Windows(text, segs, starts[..i], width, per)) + Window(text, segs, starts[i], starts[i] + width, per)
    ensures Omitted(segs, starts[..i + 1], width, per) ==
            Omitted(segs, starts[..i], width, per) + LeftOut(|Candidates(segs, starts[i], starts[i] + width)|, per)
  {
    assert starts[..i + 1][..i] == starts[..i];
    var ls := Windows(text, segs, starts[..i + 1], width, per);
    assert ls[..i] == Windows(text, segs, starts[..i], width, per);
  }
}
