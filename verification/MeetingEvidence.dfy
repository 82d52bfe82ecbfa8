/**
  The version 2 meeting evidence that the meeting tools return: the interfaces of
  packages/eliza-service/src/meeting-evidence.ts and packages/eliza-service/src/tasks/evidence.ts, and
  the checks of parseMeetingToolData that concern more than one field.
 */
module MeetingEvidence {
  import opened Options

  datatype Kind = MetadataItem | Summary | Notes | ActionItem | TranscriptExcerpt | BodyExcerpt

  datatype Offsets = Offsets(start: nat, end: nat)

  datatype Metadata = Metadata(title: Option<string>, startedAt: Option<string>, participants: seq<string>, organizer: Option<string>)

  /** A tool's own name for a piece of evidence, or the alias M<meeting>:E<number> that a ledger gives it. */
  datatype Id = Local(name: string) | Alias(meeting: nat, number: nat)

  datatype Evidence = Evidence(
    id: Id,
    kind: Kind,
    text: string,
    meta: Option<Metadata>,
    speaker: Option<string>,
    startSecs: Option<int>,
    offsets: Option<Offsets>,
    truncated: bool)
  {
    /** The kinds that quote a body. */
    predicate Excerpt() { kind.TranscriptExcerpt? || kind.BodyExcerpt? }

    predicate FromBody() { Excerpt() || (kind.Notes? && offsets.Some?) }
  }

  datatype State = Read | MetadataOnly | MeetingNotFound | NotRead | AccessDenied | Unavailable

  datatype BodyState =
    | NotRequested | Present | Missing | InvalidJson | UnsupportedShape | Empty | SizeLimit | BodyDenied | BodyUnavailable | Timeout | Cancelled

  datatype Body = Body(state: BodyState, reasonCode: Option<string>, partialDecoding: bool)

  datatype SearchState = SearchNotRequested | Matched | NoMatch

  datatype Search = Search(state: SearchState, storedFieldsExamined: bool, bodyExamined: bool, examinedMatches: nat, retainedMatches: nat)

  datatype Purpose = ForMetadata | ForSummary | ForActions | ForDecisions | ForSpeaker | ForTopic | ForTranscript

  datatype Support = Sufficient | Limited | NoSupport

  datatype Coverage = Coverage(
    purpose: Purpose,
    overviewPresent: bool,
    actionsPresent: bool,
    bodyAttempted: bool,
    bodyRequired: bool,
    retained: nat,
    omitted: nat,
    reasons: seq<string>,
    support: Support)

  datatype Outcome = Outcome(
    source: string,
    ref: string,
    meeting: Metadata,
    state: State,
    body: Body,
    search: Search,
    evidence: seq<Evidence>,
    coverage: Coverage)

  predicate AcceptedEvidence(e: Evidence) {
    && (e.id.Local? ==> e.id.name != "")
    && (e.startSecs.Some? ==> e.startSecs.value >= 0)
    && (e.offsets.Some? ==> e.offsets.value.start <= e.offsets.value.end)
  }

  predicate AcceptedOutcome(o: Outcome) {
    && o.source != "" && o.ref != ""
    && (forall i | 0 <= i < |o.evidence| :: AcceptedEvidence(o.evidence[i]))
    && o.coverage.retained == |o.evidence|
  }

  /** parseMeetingToolData accepts the outcomes. */
  predicate Accepted(outcomes: seq<Outcome>) {
    |outcomes| <= 12 && forall i | 0 <= i < |outcomes| :: AcceptedOutcome(outcomes[i])
  }
}
