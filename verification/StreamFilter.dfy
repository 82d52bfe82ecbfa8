/**
  packages/eliza-service/src/tasks/runner.ts, readModelRound: which part of a model's streamed text may
  leave the parser while the round is still being read.
 */
module StreamFilters {
  import opened Collections
  import opened Numbers
  import opened Options
  import opened Strings

  const TASK_TEXT_CHARS := 64_000
  const SLICE := 16_000
  const MARKER := "<tool_call"

  /** The content of one event; `toolCall` and `privateCall` say what the tool calls in it set. */
  datatype Delta = Delta(content: Option<string>, toolCall: bool, privateCall: bool)

  predicate At(t: string, i: int) { 0 <= i <= |t| - |MARKER| && t[i..i + |MARKER|] == MARKER }

  /** The first marker at or after `i`. */
  function MarkerFrom(t: string, i: nat): (r: Option<nat>)
    requires i <= |t|
    ensures r.Some? ==> i <= r.value <= |t|
    decreases |t| - i
  {
    if At(t, i) then Some(i) else if i == |t| then None else MarkerFrom(t, i + 1)
  }

  lemma {:induction false} MarkerFromIs(t: string, i: nat)
    requires i <= |t|
    ensures var r := MarkerFrom(t, i); r.Some? ==> At(t, r.value) && forall j | i <= j < r.value :: !At(t, j)
    ensures MarkerFrom(t, i).None? ==> forall j | i <= j :: !At(t, j)
    decreases |t| - i
  {
    if !At(t, i) && i < |t| { MarkerFromIs(t, i + 1); }
  }

  function Marker(t: string): (m: Option<nat>)
    ensures m.Some? ==> m.value <= |t|
  {
    MarkerFrom(t, 0)
  }

  lemma MarkerIsFirst(t: string)
    ensures Marker(t).Some? ==> At(t, Marker(t).value) && forall j | 0 <= j < Marker(t).value :: !At(t, j)
    ensures Marker(t).None? ==> forall j :: !At(t, j)
  {
    MarkerFromIs(t, 0);
  }

  /** The last `h` characters of `t` may be the beginning of a marker. */
  predicate Holds(t: string, h: int) { 0 <= h <= |t| && h < |MARKER| && t[|t| - h..] == MARKER[..h] }

  function HeldFrom(t: string, h: nat): (r: nat)
    requires h <= |t| && h < |MARKER|
    ensures r <= h
  {
    if h == 0 || Holds(t, h) then h else HeldFrom(t, h - 1)
  }

  lemma {:induction false} HeldFromIs(t: string, h: nat)
    requires h <= |t| && h < |MARKER|
    ensures Holds(t, HeldFrom(t, h)) && forall k | HeldFrom(t, h) < k <= h :: !Holds(t, k)
  {
    if h > 0 && !Holds(t, h) { HeldFromIs(t, h - 1); }
  }

  /** How much of the end of `t` has to wait: the longest beginning of a marker. */
  function Held(t: string): (h: nat)
    ensures h <= |t| && h < |MARKER|
  {
    HeldFrom(t, Min(|MARKER| - 1, |t|))
  }

  lemma HeldIsLongest(t: string)
    ensures Holds(t, Held(t)) && forall k | Holds(t, k) :: k <= Held(t)
  {
    HeldFromIs(t, Min(|MARKER| - 1, |t|));
  }

  /** What of the text `t` may be shown before the round has ended, and once it has. */
  function Safe(t: string): string {
    var m := Marker(t);
    if m.Some? then t[..m.value] else t[..|t| - Held(t)]
  }

  function Shown(t: string): string {
    var m := Marker(t);
    if m.Some? then t[..m.value] else t
  }

  function Lower(c: char): char { if 'A' <= c <= 'Z' then c - 'A' + 'a' else c }

  predicate ReadsAt(t: string, i: int, word: string) {
    0 <= i <= |t| - |word| && forall k | 0 <= k < |word| :: Lower(t[i + k]) == word[k]
  }

  /** The text has an inline call of a private tool: the opening tag, white space, and the tools' common prefix. */
  predicate CallsPrivateAt(t: string, i: int, j: int) {
    && ReadsAt(t, i, "<tool_call>") && i + 11 <= j && ReadsAt(t, j, "tinycloud_")
    && forall k | i + 11 <= k < j :: Space(t[k])
  }

  predicate CallsPrivate(t: string) { exists i, j | 0 <= i < |t| && 0 <= j < |t| :: CallsPrivateAt(t, i, j) }

  function Slices(v: string): (r: seq<string>)
    ensures Flat(r) == v && forall k | 0 <= k < |r| :: 0 < |r[k]| <= SLICE
  {
    if v == "" then [] else if |v| <= SLICE then [v] else [v[..SLICE]] + Slices(v[SLICE..])
  }

  function Flat(parts: seq<string>): string { if parts == [] then "" else parts[0] + Flat(parts[1..]) }

  lemma {:induction false} FlatAppend(a: seq<string>, b: seq<string>)
    ensures Flat(a + b) == Flat(a) + Flat(b)
  {
    if a == [] {
      assert a + b == b;
    } else {
      FlatAppend(a[1..], b);
      TailConcat(a, b);
      ConcatAssociates(a[0], Flat(a[1..]), Flat(b));
    }
  }

  datatype Filter = Filter(pending: string, inline: bool, privateSelected: bool, text: string, out: seq<string>, failed: bool)
  {
    function Emit(v: string): Filter { if privateSelected then this else this.(out := out + Slices(v)) }

    /** One event of the provider's stream. */
    function Deliver(d: Delta): Filter {
      var s := this.(privateSelected := privateSelected || d.privateCall);
      if failed then this
      else if d.content.None? then s
      else if |text| + |d.content.value| > TASK_TEXT_CHARS then s.(text := text + d.content.value, failed := true)
      else if d.toolCall then s.(text := text + d.content.value, pending := "")
      else s.(text := text + d.content.value).Take(pending + d.content.value)
    }

    /** `p` is the pending text with the new content; a private call in it is seen before anything of it is emitted. */
    function Take(p: string): Filter {
      var s := this.(privateSelected := privateSelected || CallsPrivate(p), pending := p);
      if inline then s else s.Split()
    }

    function Split(): Filter {
      var m := Marker(pending);
      if m.Some? then Emit(pending[..m.value]).(inline := true, pending := pending[m.value..]).Recheck()
      else
        var rest := |pending| - Held(pending);
        Emit(pending[..rest]).(pending := pending[rest..])
    }

    function Recheck(): Filter { this.(privateSelected := privateSelected || CallsPrivate(pending)) }

    /** The provider has finished: unless a marker was seen, what was held back is text after all. */
    function Finish(): Filter { if inline then this else Emit(pending) }
  }

  /** A marker in a longer text lies within the text, or the text ends with the beginning of it. */
  lemma MarkerCut(t: string, c: string, j: int)
    requires 0 <= j <= |t| && At(t + c, j)
    ensures if j + |MARKER| <= |t| then At(t, j) else Holds(t, |t| - j)
  {
    var m := (t + c)[j..j + |MARKER|];
    if j + |MARKER| <= |t| {
      assert t[j..j + |MARKER|] == m;
    } else {
      assert t[j..] == m[..|t| - j];
    }
  }

  lemma HeldCut(t: string, c: string, h: int)
    requires |c| <= h && Holds(t + c, h)
    ensures Holds(t, h - |c|)
  {
    var m := (t + c)[|t + c| - h..];
    assert t[|t| - (h - |c|)..] == m[..h - |c|] == MARKER[..h - |c|];
  }

  lemma NothingBefore(t: string, c: string, j: int)
    requires Marker(t).None? && j < |t| - Held(t)
    ensures !At(t + c, j)
  {
    MarkerIsFirst(t);
    HeldIsLongest(t);
    if 0 <= j && At(t + c, j) { MarkerCut(t, c, j); }
  }

  lemma AtShifts(a: string, p: string, j: nat)
    ensures At(a + p, |a| + j) == At(p, j)
  {
    if j <= |p| - |MARKER| {
      assert (a + p)[|a| + j..|a| + j + |MARKER|] == p[j..j + |MARKER|];
    }
  }

  /** New content makes markers only from what was held back, so looking at that and the content is enough. */
  lemma AtInPending(t: string, c: string, j: int)
    requires Marker(t).None?
    ensures At(t + c, j) == At(t[|t| - Held(t)..] + c, j - (|t| - Held(t)))
  {
    var sent := |t| - Held(t);
    if j < sent {
      NothingBefore(t, c, j);
    } else {
      PrefixAndRest(t[..sent], t);
      ConcatAssociates(t[..sent], t[sent..], c);
      AtShifts(t[..sent], t[sent..] + c, j - sent);
    }
  }

  lemma HoldsWithin(a: string, p: string, h: int)
    requires 0 <= h <= |p|
    ensures Holds(a + p, h) == Holds(p, h)
  {
    assert (a + p)[|a + p| - h..] == p[|p| - h..];
  }

  lemma HoldsInPending(t: string, c: string, h: int)
    requires Marker(t).None?
    ensures Holds(t + c, h) == Holds(t[|t| - Held(t)..] + c, h)
  {
    HeldIsLongest(t);
    var a, b := t[..|t| - Held(t)], t[|t| - Held(t)..];
    if 0 <= h <= |b + c| {
      HoldsWithin(a, b + c, h);
      assert t + c == a + (b + c);
    } else if Holds(t + c, h) {
      HeldCut(t, c, h);
    }
  }

  lemma MarkerIs(t: string, j: int)
    requires At(t, j) && forall k | 0 <= k < j :: !At(t, k)
    ensures Marker(t) == Some(j)
  {
    MarkerIsFirst(t);
  }

  lemma HeldIs(t: string, h: int)
    requires Holds(t, h) && forall k | Holds(t, k) :: k <= h
    ensures Held(t) == h
  {
    HeldIsLongest(t);
  }

  /** Two texts whose markers are at the same places but for a shift. */
  lemma MarkerShifts(a: string, b: string, sent: nat)
    requires forall k {:trigger At(a, k)} :: At(a, k) == At(b, k - sent)
    ensures Marker(a) == if Marker(b).Some? then Some(sent + Marker(b).value) else None
  {
    MarkerIsFirst(b);
    if Marker(b).Some? {
      assert At(a, sent + Marker(b).value);
      MarkerIs(a, sent + Marker(b).value);
    } else {
      NoMarker(a);
    }
  }

  /** `b` is what has been held back of `t`. */
  lemma MarkerInPending(t: string, b: string, c: string)
    requires Marker(t).None? && b == t[|t| - Held(t)..]
    ensures Marker(t + c) == if Marker(b + c).Some? then Some(|t| - Held(t) + Marker(b + c).value) else None
  {
    var sent := |t| - Held(t);
    forall k {:trigger At(t + c, k)} ensures At(t + c, k) == At(b + c, k - sent) { AtInPending(t, c, k); }
    MarkerShifts(t + c, b + c, sent);
  }

  lemma NoMarker(t: string)
    requires forall k :: !At(t, k)
    ensures Marker(t).None?
  {
    MarkerIsFirst(t);
  }

  lemma HeldInPending(t: string, b: string, c: string)
    requires Marker(t).None? && b == t[|t| - Held(t)..]
    ensures Held(t + c) == Held(b + c)
  {
    forall k {:trigger Holds(t + c, k)} ensures Holds(t + c, k) == Holds(b + c, k) { HoldsInPending(t, c, k); }
    HeldIsLongest(b + c);
    HeldIs(t + c, Held(b + c));
  }

  /** What has been shown safely of a text, and what has not been shown of it. */
  function Kept(t: string): string {
    var m := Marker(t);
    if m.Some? then t[m.value..] else t[|t| - Held(t)..]
  }

  lemma MarkerStaysFirst(t: string, c: string)
    requires Marker(t).Some?
    ensures Marker(t + c) == Marker(t)
  {
    var m := Marker(t).value;
    MarkerIsFirst(t);
    forall k | 0 <= k <= m ensures At(t + c, k) == At(t, k) {
      assert (t + c)[k..k + |MARKER|] == t[k..k + |MARKER|];
    }
    MarkerIs(t + c, m);
  }

  /** A marker that has been seen stays the first one. */
  lemma MarkerStays(t: string, c: string)
    requires Marker(t).Some?
    ensures Marker(t + c) == Marker(t) && Safe(t + c) == Safe(t) && Kept(t + c) == Kept(t) + c
  {
    MarkerStaysFirst(t, c);
    SliceConcat(t, c, Marker(t).value);
  }

  lemma SplitPending(a: string, p: string, k: nat)
    requires k <= |p|
    ensures (a + p)[..|a| + k] == a + p[..k] && (a + p)[|a| + k..] == p[k..]
  {
  }

  /** In front of a text without markers of its own, what was sent only shifts what is found. */
  lemma SafeBehind(a: string, p: string, t: string)
    requires t == a + p && Marker(t) == (if Marker(p).Some? then Some(|a| + Marker(p).value) else None) && Held(t) == Held(p)
    ensures Safe(t) == a + Safe(p) && Kept(t) == Kept(p)
  {
    SplitPending(a, p, if Marker(p).Some? then Marker(p).value else |p| - Held(p));
  }

  lemma NoMarkerSplits(t: string)
    requires Marker(t).None?
    ensures Safe(t) == t[..|t| - Held(t)] && Kept(t) == t[|t| - Held(t)..] && t == Safe(t) + Kept(t) && |Safe(t)| == |t| - Held(t)
  {
  }

  lemma FoundInPending(a: string, b: string, c: string)
    requires Marker(a + b).None? && |b| == Held(a + b)
    ensures Marker(a + b + c) == (if Marker(b + c).Some? then Some(|a| + Marker(b + c).value) else None)
    ensures Held(a + b + c) == Held(b + c)
  {
    DropConcat(a, b);
    MarkerInPending(a + b, b, c);
    HeldInPending(a + b, b, c);
  }

  /** New content: what can be shown, and what is kept, is found from the pending text alone. */
  lemma NextPending(t: string, c: string)
    requires Marker(t).None?
    ensures var p := Kept(t) + c;
      Marker(t + c).Some? == Marker(p).Some? && Safe(t + c) == Safe(t) + Safe(p) && Kept(t + c) == Kept(p)
  {
    NoMarkerSplits(t);
    var a, b := Safe(t), Kept(t);
    FoundInPending(a, b, c);
    ConcatAssociates(a, b, c);
    SafeBehind(a, b + c, t + c);
  }

  /** The simple form: the text before the last event that carried a tool call, as shown, and the text since. */
  datatype View = View(done: string, since: string)

  function Content(d: Delta): string { if d.content.Some? then d.content.value else "" }

  function Seen(ds: seq<Delta>): View {
    if ds == [] then View("", "")
    else
      var v, d := Seen(ds[..|ds| - 1]), ds[|ds| - 1];
      if !d.toolCall then View(v.done, v.since + Content(d))
      else if d.content.None? || Marker(v.since).Some? then v
      else View(v.done + Safe(v.since), "")
  }

  function Run(s: Filter, ds: seq<Delta>): Filter {
    if ds == [] then s else Run(s, ds[..|ds| - 1]).Deliver(ds[|ds| - 1])
  }

  function Start(priorPrivate: bool): Filter { Filter("", false, priorPrivate, "", [], false) }

  /** What the filter keeps and has emitted is what a look at the whole text would give. */
  ghost predicate Matches(s: Filter, v: View) {
    && s.inline == Marker(v.since).Some?
    && (!s.inline ==> s.pending == Kept(v.since))
    && (!s.privateSelected ==> Flat(s.out) == v.done + Safe(v.since))
  }

  lemma EmitFlat(s: Filter, v: string)
    ensures s.privateSelected ==> s.Emit(v) == s
    ensures !s.privateSelected ==> Flat(s.Emit(v).out) == Flat(s.out) + v
  {
    FlatAppend(s.out, Slices(v));
  }

  /** What Split does to the pending text, and what it emits. */
  lemma SplitSplits(s: Filter)
    requires !s.inline
    ensures var t := s.Split();
      && t.inline == Marker(s.pending).Some? && t.pending == Kept(s.pending)
      && (s.privateSelected ==> t.privateSelected) && (t.inline && CallsPrivate(t.pending) ==> t.privateSelected)
      && (!s.privateSelected ==> Flat(t.out) == Flat(s.out) + Safe(s.pending))
  {
    EmitFlat(s, Safe(s.pending));
  }

  lemma TakeMatches(s: Filter, v: View, c: string)
    requires Matches(s, v)
    ensures Matches(s.Take(s.pending + c), View(v.done, v.since + c))
  {
    var p := s.pending + c;
    if s.inline {
      MarkerStays(v.since, c);
    } else {
      NextPending(v.since, c);
      SplitSplits(s.(privateSelected := s.privateSelected || CallsPrivate(p), pending := p));
      ConcatAssociates(v.done, Safe(v.since), Safe(p));
    }
  }

  lemma SeenLast(ds: seq<Delta>, d: Delta)
    ensures var v := Seen(ds);
      Seen(ds + [d]) ==
        if !d.toolCall then View(v.done, v.since + Content(d))
        else if d.content.None? || Marker(v.since).Some? then v
        else View(v.done + Safe(v.since), "")
  {
    assert (ds + [d])[..|ds|] == ds;
  }

  lemma EmptyIsSafe()
    ensures Marker("").None? && Safe("") == "" && Kept("") == ""
  {
  }

  lemma NothingMore(t: string)
    ensures t + "" == t
  {
  }

  lemma ClearedMatches(s: Filter, v: View, t: Filter)
    requires Matches(s, v) && t.inline == s.inline && t.out == s.out && t.pending == "" && (s.privateSelected ==> t.privateSelected)
    ensures Matches(t, if Marker(v.since).Some? then v else View(v.done + Safe(v.since), ""))
  {
    if Marker(v.since).None? {
      EmptyIsSafe();
      NothingMore(v.done + Safe(v.since));
    }
  }

  /** A tool call beside the text discards what was held back. */
  lemma ToolCallMatches(s: Filter, v: View, d: Delta)
    requires Matches(s, v) && d.content.Some? && d.toolCall && !s.Deliver(d).failed
    ensures Matches(s.Deliver(d), if Marker(v.since).Some? then v else View(v.done + Safe(v.since), ""))
  {
    var t := s.(privateSelected := s.privateSelected || d.privateCall, text := s.text + d.content.value, pending := "");
    assert s.Deliver(d) == t;
    ClearedMatches(s, v, t);
  }

  lemma QuietMatches(s: Filter, v: View, d: Delta)
    requires Matches(s, v) && d.content.None?
    ensures Matches(s.Deliver(d), v) && v.since + Content(d) == v.since
  {
  }

  lemma TextMatches(s: Filter, v: View, d: Delta)
    requires Matches(s, v) && d.content.Some? && !d.toolCall && !s.Deliver(d).failed
    ensures Matches(s.Deliver(d), View(v.done, v.since + d.content.value))
  {
    TakeMatches(s.(privateSelected := s.privateSelected || d.privateCall, text := s.text + d.content.value), v, d.content.value);
  }

  lemma DeliverMatches(s: Filter, v: View, ds: seq<Delta>, d: Delta)
    requires Matches(s, v) && v == Seen(ds) && !s.Deliver(d).failed
    ensures Matches(s.Deliver(d), Seen(ds + [d]))
  {
    SeenLast(ds, d);
    if d.content.None? {
      QuietMatches(s, v, d);
    } else if d.toolCall {
      ToolCallMatches(s, v, d);
    } else {
      TextMatches(s, v, d);
    }
  }

  lemma RunLast(s: Filter, front: seq<Delta>, d: Delta)
    ensures Run(s, front + [d]) == Run(s, front).Deliver(d)
  {
    assert (front + [d])[..|front|] == front;
  }

  lemma {:induction false} RunMatches(prior: bool, ds: seq<Delta>)
    requires !Run(Start(prior), ds).failed
    ensures Matches(Run(Start(prior), ds), Seen(ds))
  {
    if ds != [] {
      var front, d := ds[..|ds| - 1], ds[|ds| - 1];
      assert front + [d] == ds;
      RunLast(Start(prior), front, d);
      RunMatches(prior, front);
      DeliverMatches(Run(Start(prior), front), Seen(front), front, d);
    }
  }

  function Text(ds: seq<Delta>): string {
    if ds == [] then "" else Text(ds[..|ds| - 1]) + Content(ds[|ds| - 1])
  }

  /** A round ends early for its length exactly when its whole text is longer than the bound. */
  lemma {:induction false} FailsIff(prior: bool, ds: seq<Delta>)
    ensures Run(Start(prior), ds).failed <==> |Text(ds)| > TASK_TEXT_CHARS
    ensures !Run(Start(prior), ds).failed ==> Run(Start(prior), ds).text == Text(ds)
  {
    if ds != [] {
      FailsIff(prior, ds[..|ds| - 1]);
    }
  }

  predicate Plain(ds: seq<Delta>) { forall d | d in ds :: !d.toolCall }

  lemma {:induction false} PlainSeen(ds: seq<Delta>)
    requires Plain(ds)
    ensures Seen(ds) == View("", Text(ds))
  {
    if ds != [] {
      PlainSeen(ds[..|ds| - 1]);
    }
  }

  /** Without tool calls beside the text, all of the text from its first marker on is pending, and looked at. */
  ghost predicate Watches(s: Filter, t: string) {
    s.inline == Marker(t).Some? && s.pending == Kept(t) && (s.inline && CallsPrivate(s.pending) ==> s.privateSelected)
  }

  lemma TakeWatches(s: Filter, t: string, c: string)
    requires Watches(s, t)
    ensures Watches(s.Take(s.pending + c), t + c)
  {
    if s.inline {
      MarkerStays(t, c);
    } else {
      NextPending(t, c);
      var p := s.pending + c;
      SplitSplits(s.(privateSelected := s.privateSelected || CallsPrivate(p), pending := p));
    }
  }

  lemma {:induction false} PlainWatches(prior: bool, ds: seq<Delta>)
    requires !Run(Start(prior), ds).failed && Plain(ds)
    ensures Watches(Run(Start(prior), ds), Text(ds))
  {
    if ds != [] {
      var front, d := ds[..|ds| - 1], ds[|ds| - 1];
      PlainWatches(prior, front);
      assert d in ds && Text(front) + "" == Text(front);
      var s := Run(Start(prior), front);
      if d.content.Some? {
        TakeWatches(s.(privateSelected := s.privateSelected || d.privateCall, text := s.text + d.content.value), Text(front), d.content.value);
      }
    }
  }

  // ── When a private call is seen ────────────────────────────────────────────

  /** The text that is looked at again with the next event: since the last tool call beside the text, and not yet shown. */
  function Awaited(ds: seq<Delta>): string {
    if ds == [] then ""
    else
      var front, d := ds[..|ds| - 1], ds[|ds| - 1];
      if d.content.None? then Awaited(front)
      else if d.toolCall then ""
      else if Marker(Seen(front).since).Some? then Awaited(front) + d.content.value
      else Kept(Awaited(front) + d.content.value)
  }

  /** Event `k` calls a private tool, beside its text or in it. */
  predicate Reveals(ds: seq<Delta>, k: nat)
    requires k < |ds|
  {
    ds[k].privateCall || (ds[k].content.Some? && !ds[k].toolCall && CallsPrivate(Awaited(ds[..k]) + ds[k].content.value))
  }

  predicate Private(ds: seq<Delta>) { exists k | 0 <= k < |ds| :: Reveals(ds, k) }

  lemma SplitAwaits(s: Filter, p: string)
    ensures s.Take(p).privateSelected <==> s.privateSelected || CallsPrivate(p)
    ensures s.inline ==> s.Take(p).pending == p
    ensures !s.inline ==> s.Take(p).pending == Kept(p)
  {
    RecheckIsRedundant(p);
  }

  lemma DeliverAwaits(s: Filter, front: seq<Delta>, d: Delta)
    requires s.pending == Awaited(front) && s.inline == Marker(Seen(front).since).Some? && !s.Deliver(d).failed
    ensures s.Deliver(d).pending == Awaited(front + [d])
    ensures s.Deliver(d).privateSelected <==> s.privateSelected || Reveals(front + [d], |front|)
  {
    assert (front + [d])[..|front|] == front;
    if d.content.Some? && !d.toolCall {
      SplitAwaits(s.(privateSelected := s.privateSelected || d.privateCall, text := s.text + d.content.value), s.pending + d.content.value);
    }
  }

  lemma PrivateLast(front: seq<Delta>, d: Delta)
    ensures Private(front + [d]) <==> Private(front) || Reveals(front + [d], |front|)
  {
    var ds := front + [d];
    forall k | 0 <= k < |front| ensures Reveals(ds, k) == Reveals(front, k) {
      assert ds[..k] == front[..k] && ds[k] == front[k];
    }
    if Private(front) {
      var k :| 0 <= k < |front| && Reveals(front, k);
      assert Reveals(ds, k);
    }
  }

  /** A round counts as private exactly when it followed a private one or an event of it called a private tool. */
  lemma {:induction false} SelectedIff(prior: bool, ds: seq<Delta>)
    requires |Text(ds)| <= TASK_TEXT_CHARS
    ensures Run(Start(prior), ds).pending == Awaited(ds)
    ensures Run(Start(prior), ds).privateSelected <==> prior || Private(ds)
  {
    if ds != [] {
      var front, d := ds[..|ds| - 1], ds[|ds| - 1];
      assert front + [d] == ds;
      SelectedIff(prior, front);
      FailsIff(prior, ds);
      FailsIff(prior, front);
      RunMatches(prior, front);
      RunLast(Start(prior), front, d);
      DeliverAwaits(Run(Start(prior), front), front, d);
      PrivateLast(front, d);
    }
  }

  lemma KeptIsEnd(t: string)
    ensures exists cut :: 0 <= cut <= |t| && Kept(t) == t[cut..]
  {
    assert Kept(t) == t[if Marker(t).Some? then Marker(t).value else |t| - Held(t)..];
  }

  /** What is looked at again is an end of the text. */
  lemma {:induction false} AwaitedIsEnd(ds: seq<Delta>) returns (cut: nat)
    ensures cut <= |Text(ds)| && Awaited(ds) == Text(ds)[cut..]
  {
    if ds == [] {
      cut := 0;
    } else {
      var front, d := ds[..|ds| - 1], ds[|ds| - 1];
      var before := AwaitedIsEnd(front);
      if d.content.None? {
        cut := before;
        assert Text(ds) == Text(front);
      } else if d.toolCall {
        cut := |Text(ds)|;
      } else {
        var p := Awaited(front) + d.content.value;
        EndOfEnd(Text(front), before, d.content.value);
        KeptIsEnd(p);
        var inner :| 0 <= inner <= |p| && Kept(p) == p[inner..];
        cut := if Marker(Seen(front).since).Some? then before else before + inner;
      }
    }
  }

  lemma EndOfEnd(t: string, cut: nat, c: string)
    requires cut <= |t|
    ensures (t + c)[cut..] == t[cut..] + c
    ensures forall inner | 0 <= inner <= |t| - cut + |c| :: (t + c)[cut + inner..] == (t[cut..] + c)[inner..]
  {
  }

  lemma CallInEnd(t: string, cut: nat)
    requires cut <= |t| && CallsPrivate(t[cut..])
    ensures CallsPrivate(t)
  {
    var p := t[cut..];
    var i, j :| 0 <= i < |p| && 0 <= j < |p| && CallsPrivateAt(p, i, j);
    assert forall k | 0 <= k < |p| :: p[k] == t[cut + k];
    assert forall k | cut + i + 11 <= k < cut + j :: t[k] == p[k - cut];
    assert CallsPrivateAt(t, cut + i, cut + j);
  }

  lemma CallInFront(t: string, u: string)
    requires CallsPrivate(t)
    ensures CallsPrivate(t + u)
  {
    var i, j :| 0 <= i < |t| && 0 <= j < |t| && CallsPrivateAt(t, i, j);
    assert CallsPrivateAt(t + u, i, j);
  }

  lemma {:induction false} CallStays(ds: seq<Delta>, k: nat)
    requires k <= |ds| && CallsPrivate(Text(ds[..k]))
    ensures CallsPrivate(Text(ds))
    decreases |ds| - k
  {
    if k < |ds| {
      assert ds[..k + 1][..k] == ds[..k];
      CallInFront(Text(ds[..k]), Content(ds[k]));
      CallStays(ds, k + 1);
    } else {
      assert ds[..k] == ds;
    }
  }

  /** No false alarm: in a private round a delta called a private tool, or the text as a whole does. */
  lemma PrivateHasReason(ds: seq<Delta>)
    requires Private(ds)
    ensures CallsPrivate(Text(ds)) || exists d :: d in ds && d.privateCall
  {
    var k :| 0 <= k < |ds| && Reveals(ds, k);
    if ds[k].privateCall {
      assert ds[k] in ds;
    } else {
      var cut := AwaitedIsEnd(ds[..k]);
      EndOfEnd(Text(ds[..k]), cut, ds[k].content.value);
      assert ds[..k + 1][..k] == ds[..k];
      CallInEnd(Text(ds[..k + 1]), cut);
      CallStays(ds, k + 1);
    }
  }

  /** Without tool calls beside the text, what is looked at again is what is kept of the whole text. */
  lemma {:induction false} PlainAwaits(ds: seq<Delta>)
    requires Plain(ds)
    ensures Awaited(ds) == Kept(Text(ds))
  {
    if ds == [] {
      EmptyIsSafe();
    } else {
      var front, d := ds[..|ds| - 1], ds[|ds| - 1];
      PlainAwaits(front);
      PlainSeen(front);
      assert d in ds;
      if d.content.None? {
        assert Text(ds) == Text(front);
      } else if Marker(Text(front)).Some? {
        MarkerStays(Text(front), d.content.value);
      } else {
        NextPending(Text(front), d.content.value);
      }
    }
  }

  /** ... so that a round is private exactly when an event calls a private tool, or its text with what was kept does. */
  lemma PlainSelectedIff(prior: bool, ds: seq<Delta>)
    requires |Text(ds)| <= TASK_TEXT_CHARS && Plain(ds)
    ensures Run(Start(prior), ds).privateSelected <==>
              prior || exists k | 0 <= k < |ds| ::
                ds[k].privateCall || (ds[k].content.Some? && CallsPrivate(Kept(Text(ds[..k])) + ds[k].content.value))
  {
    SelectedIff(prior, ds);
    forall k | 0 <= k < |ds|
      ensures Reveals(ds, k) == (ds[k].privateCall || (ds[k].content.Some? && CallsPrivate(Kept(Text(ds[..k])) + ds[k].content.value)))
    {
      PlainAwaits(ds[..k]);
      assert ds[k] in ds;
    }
  }

  // ── What a round shows ─────────────────────────────────────────────────────

  lemma OpenIsSeen(ds: seq<Delta>)
    requires |Text(ds)| <= TASK_TEXT_CHARS && !Run(Start(false), ds).privateSelected
    ensures Flat(Run(Start(false), ds).out) == Seen(ds).done + Safe(Seen(ds).since)
    ensures Flat(Run(Start(false), ds).Finish().out) == Seen(ds).done + Shown(Seen(ds).since)
  {
    FailsIff(false, ds);
    RunMatches(false, ds);
    var s, t := Run(Start(false), ds), Seen(ds).since;
    EmitFlat(s, s.pending);
    if Marker(t).None? {
      assert Safe(t) + Kept(t) == t;
      ConcatAssociates(Seen(ds).done, Safe(t), Kept(t));
    }
  }

  /** With tool calls beside the text: each stretch of text between them is shown as far as is safe, the last one to its marker. */
  lemma StreamIsSeen(ds: seq<Delta>)
    requires |Text(ds)| <= TASK_TEXT_CHARS && !Private(ds)
    ensures Flat(Run(Start(false), ds).out) == Seen(ds).done + Safe(Seen(ds).since)
    ensures Flat(Run(Start(false), ds).Finish().out) == Seen(ds).done + Shown(Seen(ds).since)
  {
    SelectedIff(false, ds);
    OpenIsSeen(ds);
  }

  /**
    Streaming is batch: whatever the deltas, a completed round in which no delta and no text calls a
    private tool, and no tool call comes beside its text, has emitted exactly the text in front of the
    first marker.
   */
  lemma StreamIsBatch(ds: seq<Delta>)
    requires |Text(ds)| <= TASK_TEXT_CHARS && Plain(ds)
    requires !CallsPrivate(Text(ds)) && forall d | d in ds :: !d.privateCall
    ensures Flat(Run(Start(false), ds).Finish().out) == Shown(Text(ds))
  {
    if Private(ds) {
      PrivateHasReason(ds);
    }
    StreamIsSeen(ds);
    PlainSeen(ds);
  }

  /** At every moment what is shown is a prefix of what any continuation shows, at most nine characters behind. */
  lemma SafeLags(t: string, c: string)
    ensures Safe(t) <= Shown(t) && |Shown(t)| - |Safe(t)| <= |MARKER| - 1
    ensures Safe(t) <= Safe(t + c) && Safe(t) <= Shown(t + c)
  {
    if Marker(t).Some? {
      MarkerStays(t, c);
    } else {
      NextPending(t, c);
    }
    assert Safe(t + c) <= Shown(t + c);
  }

  /** Nothing is emitted once a private call has been seen. */
  lemma {:induction false} PrivateFreezes(s: Filter, ds: seq<Delta>)
    requires s.privateSelected
    ensures Run(s, ds).privateSelected && Run(s, ds).out == s.out && Run(s, ds).Finish().out == s.out
  {
    if ds != [] {
      PrivateFreezes(s, ds[..|ds| - 1]);
    }
  }

  lemma {:induction false} RunOn(s: Filter, a: seq<Delta>, b: seq<Delta>)
    ensures Run(s, a + b) == Run(Run(s, a), b)
    decreases |b|
  {
    if b == [] {
      assert a + b == a;
    } else {
      RunOn(s, a, b[..|b| - 1]);
      FrontConcat(a, b);
    }
  }

  /** The event in which a private call is first seen emits nothing. */
  lemma SeenHides(s: Filter, d: Delta)
    requires !s.privateSelected && s.Deliver(d).privateSelected
    ensures s.Deliver(d).out == s.out
  {
    if d.content.Some? {
      var p := s.pending + d.content.value;
      RecheckIsRedundant(p);
    }
  }

  /** A private call after the marker is already found by the look at the whole pending text. */
  lemma RecheckIsRedundant(p: string)
    ensures Marker(p).Some? && CallsPrivate(p[Marker(p).value..]) ==> CallsPrivate(p)
  {
    if Marker(p).Some? && CallsPrivate(p[Marker(p).value..]) {
      var m := Marker(p).value;
      var t := p[m..];
      var i, j :| 0 <= i < |t| && 0 <= j < |t| && CallsPrivateAt(t, i, j);
      assert forall k | 0 <= k < |t| :: t[k] == p[m + k];
      assert forall k | m + i + 11 <= k < m + j :: p[k] == t[k - m];
      assert CallsPrivateAt(p, m + i, m + j);
    }
  }

  lemma RunThrough(s: Filter, ds: seq<Delta>, k: nat)
    requires k < |ds|
    ensures Run(s, ds) == Run(Run(s, ds[..k]).Deliver(ds[k]), ds[k + 1..])
    ensures Run(s, ds[..k + 1]) == Run(s, ds[..k]).Deliver(ds[k])
  {
    assert ds[..k + 1][..k] == ds[..k] && ds[..k + 1] + ds[k + 1..] == ds;
    RunOn(s, ds[..k + 1], ds[k + 1..]);
  }

  lemma TextPrefix(ds: seq<Delta>, k: nat)
    requires k <= |ds|
    ensures |Text(ds[..k])| <= |Text(ds)|
    decreases |ds| - k
  {
    if k < |ds| {
      assert ds[..k + 1][..k] == ds[..k];
      TextPrefix(ds, k + 1);
    } else {
      assert ds[..k] == ds;
    }
  }

  /** What the events up to `k` reveal is what a round of just those events reveals. */
  lemma RevealedUpTo(ds: seq<Delta>, k: nat)
    requires k <= |ds|
    ensures Private(ds[..k]) <==> exists j | 0 <= j < k :: Reveals(ds, j)
  {
    forall j | 0 <= j < k ensures Reveals(ds[..k], j) == Reveals(ds, j) {
      assert ds[..k][..j] == ds[..j];
    }
  }

  /** If event `k` is the first to call a private tool, the round shows what was safe before that event, and nothing of it. */
  lemma PrivateShowsPreamble(ds: seq<Delta>, k: nat)
    requires |Text(ds)| <= TASK_TEXT_CHARS && k < |ds|
    requires Reveals(ds, k) && forall j | 0 <= j < k :: !Reveals(ds, j)
    ensures Flat(Run(Start(false), ds).Finish().out) == Seen(ds[..k]).done + Safe(Seen(ds[..k]).since)
  {
    RunThrough(Start(false), ds, k);
    TextPrefix(ds, k);
    TextPrefix(ds, k + 1);
    RevealedUpTo(ds, k);
    RevealedUpTo(ds, k + 1);
    SelectedIff(false, ds[..k]);
    SelectedIff(false, ds[..k + 1]);
    var s := Run(Start(false), ds[..k]);
    PrivateFreezes(s.Deliver(ds[k]), ds[k + 1..]);
    SeenHides(s, ds[k]);
    OpenIsSeen(ds[..k]);
  }

  /** However the text is cut into deltas, a private call written after the first marker is seen. */
  lemma PrivateCallIsSeen(prior: bool, ds: seq<Delta>)
    requires |Text(ds)| <= TASK_TEXT_CHARS && Plain(ds)
    requires Marker(Text(ds)).Some? && CallsPrivate(Text(ds)[Marker(Text(ds)).value..])
    ensures Run(Start(prior), ds).privateSelected
  {
    FailsIff(prior, ds);
    PlainWatches(prior, ds);
  }

  /** The state of one call of readModelRound, and the content it has emitted. */
  class Round {
    var pending: string
    var inline: bool
    var privateSelected: bool
    var text: string
    var content: seq<string>
    var failed: bool

    ghost function View(): Filter
      reads this
    {
      Filter(pending, inline, privateSelected, text, content, failed)
    }

    constructor (priorPrivate: bool)
      ensures View() == Start(priorPrivate)
    {
      pending, inline, privateSelected, text, content, failed := "", false, priorPrivate, "", [], false;
    }

    method Emit(value: string)
      modifies this`content
      ensures View() == old(View()).Emit(value)
    {
      if privateSelected || value == "" {
        return;
      }
      var i := 0;
      while i < |value|
        invariant 0 <= i <= |value|
        invariant content + Slices(value[i..]) == old(content) + Slices(value)
      {
        var end := if i + SLICE <= |value| then i + SLICE else |value|;
        SliceOff(content, value, i, end);
        content := content + [value[i..end]];
        i := end;
      }
    }

    /** The length of the longest end of `t` that may begin a marker. */
    method HeldBack(t: string) returns (held: nat)
      ensures held == Held(t)
    {
      held := if |MARKER| - 1 <= |t| then |MARKER| - 1 else |t|;
      while held > 0 && t[|t| - held..] != MARKER[..held]
        invariant held <= |t| && held < |MARKER| && forall k | Holds(t, k) :: k <= held
      {
        held := held - 1;
      }
      HeldIs(t, held);
    }

    method IndexOfMarker(t: string) returns (start: Option<nat>)
      ensures start == Marker(t)
    {
      var i := 0;
      while i + |MARKER| <= |t|
        invariant 0 <= i <= |t| && forall k | 0 <= k < i :: !At(t, k)
      {
        if t[i..i + |MARKER|] == MARKER {
          MarkerIs(t, i);
          return Some(i);
        }
        i := i + 1;
      }
      NoMarker(t);
      return None;
    }

    method Deliver(d: Delta)
      requires !failed
      modifies this
      ensures View() == old(View()).Deliver(d)
    {
      if d.privateCall {
        privateSelected := true;
      }
      if d.content.None? {
        return;
      }
      text := text + d.content.value;
      if |text| > TASK_TEXT_CHARS {
        failed := true;
        return;
      }
      if d.toolCall {
        pending := "";
      } else {
        pending := pending + d.content.value;
        if CallsPrivate(pending) {
          privateSelected := true;
        }
        if !inline {
          Split();
        }
        if inline && CallsPrivate(pending) {
          privateSelected := true;
        }
      }
    }

    method Split()
      modifies this`pending, this`inline, this`content
      ensures View() == old(View()).Split().(privateSelected := privateSelected)
    {
      ghost var before := View();
      SplitIs(before);
      var start := IndexOfMarker(pending);
      if start.Some? {
        var shown, rest := pending[..start.value], pending[start.value..];
        Emit(shown);
        inline := true;
        pending := rest;
      } else {
        var held := HeldBack(pending);
        var shown, rest := pending[..|pending| - held], pending[|pending| - held..];
        Emit(shown);
        pending := rest;
      }
    }

    method Finish()
      modifies this`content
      ensures View() == old(View()).Finish()
    {
      if !inline {
        Emit(pending);
      }
    }
  }

  lemma SplitIs(f: Filter)
    ensures var m, rest := Marker(f.pending), |f.pending| - Held(f.pending);
      f.Split().(privateSelected := f.privateSelected) ==
        if m.Some? then f.Emit(f.pending[..m.value]).(inline := true, pending := f.pending[m.value..])
        else f.Emit(f.pending[..rest]).(pending := f.pending[rest..])
  {
  }

  lemma SliceOff(out: seq<string>, v: string, i: nat, end: nat)
    requires i < |v| && end == Min(i + SLICE, |v|)
    ensures out + Slices(v[i..]) == out + [v[i..end]] + Slices(v[end..])
  {
    var rest := v[i..];
    assert rest[..end - i] == v[i..end] && rest[end - i..] == v[end..];
    assert Slices(rest) == [v[i..end]] + Slices(v[end..]);
  }
}
