/**
 * Outbox records: eligibility, the content policy applied both when a record is
 * written and when it is read back, and the on-disk form.
 */
module OutboxRecords {
  import opened Values

  const TTL_MS: int := 600_000
  const COMPLETION_TEXT_MAX_LENGTH: nat := 500
  const ELLIPSIS: char := '\U{2026}'

  type DeliveryId = string

  datatype HookEvent = ToReview | ToInProgress | Activity

  /** Hook metadata; `None` stands for both `null` and an absent key. */
  datatype Metadata = Metadata(
    source: Option<string>,
    sessionId: Option<string>,
    sessionInstanceId: Option<string>,
    turnId: Option<string>,
    promptId: Option<string>,
    toolUseId: Option<string>,
    elicitationId: Option<string>,
    providerAgentId: Option<string>,
    hookEventName: Option<string>,
    toolName: Option<string>,
    notificationType: Option<string>,
    unboundedBackgroundWorkPending: bool,
    finalMessage: Option<string>,
    conversationSummaryText: Option<string>,
    transcriptPath: Option<string>,
    sessionStartSource: Option<string>,
    sessionStartHasTranscript: Option<bool>,
    activityText: Option<string>,
    toolInputSummary: Option<string>
  )

  datatype Delivery = Delivery(id: DeliveryId, occurredAt: nat)

  /** A hook event as the command line hands it over; delivery identity may be missing. */
  datatype HookRequest = HookRequest(
    taskId: string, projectId: string, event: HookEvent, metadata: Option<Metadata>, delivery: Option<Delivery>)

  /** The request half of a record: delivery identity is mandatory there. */
  datatype Request = Request(
    taskId: string, projectId: string, event: HookEvent, metadata: Option<Metadata>, delivery: Delivery)

  datatype Record = Record(expiresAt: int, enqueuedAt: int, abandonedAt: Option<int>, request: Request)

  /** The JSON document on disk. Writers before `enqueuedAt` existed leave it out. */
  datatype Stored = Stored(expiresAt: int, enqueuedAt: Option<int>, abandonedAt: Option<int>, request: Request)

  // ---------------------------------------------------------------- content policy

  predicate IsForegroundCompletion(event: HookEvent, m: Metadata) {
    var source := TrimLower(m.source);
    var name := TrimLower(m.hookEventName);
    && !(m.providerAgentId.Some? && Trim(m.providerAgentId.value) != "")
    && (|| (source in {Some("codex"), Some("claude")} && event == ToReview && name == Some("stop"))
        || (source == Some("pi") && event == ToReview && name == Some("agentsettled"))
        || (source == Some("pi") && event == Activity && name == Some("agentsettledbackgroundpending")))
  }

  function TrimOption(text: Option<string>): Option<string> {
    if text.None? then None else Some(Trim(text.value))
  }

  /** `finalMessage?.trim() || conversationSummaryText?.trim()`, for completion hooks only. */
  function CompletionText(event: HookEvent, m: Metadata): Option<string> {
    if !IsForegroundCompletion(event, m) then None
    else if Truthy(TrimOption(m.finalMessage)) then TrimOption(m.finalMessage)
    else TrimOption(m.conversationSummaryText)
  }

  function Bounded(text: string): string {
    if |text| > COMPLETION_TEXT_MAX_LENGTH then text[..COMPLETION_TEXT_MAX_LENGTH] + [ELLIPSIS] else text
  }

  predicate IsCodexSessionStart(m: Metadata) {
    TrimLower(m.source) == Some("codex") && TrimLower(m.hookEventName) == Some("sessionstart")
  }

  function Normalize(event: HookEvent, m: Metadata): Metadata {
    var text := CompletionText(event, m);
    var codexStart := IsCodexSessionStart(m);
    m.(finalMessage := if Truthy(text) then Some(Bounded(text.value)) else None,
       conversationSummaryText := None,
       transcriptPath := None,
       sessionStartSource := if codexStart then m.sessionStartSource else None,
       sessionStartHasTranscript :=
         if codexStart
         then Some(Truthy(TrimOption(m.transcriptPath)) || m.sessionStartHasTranscript == Some(true))
         else None,
       activityText := None,
       toolInputSummary := None)
  }

  function NormalizeOption(event: HookEvent, m: Option<Metadata>): Option<Metadata> {
    if m.None? then None else Some(Normalize(event, m.value))
  }

  // ---------------------------------------------------------------- creation, writing, loading

  predicate Replayable(request: HookRequest) {
    && request.delivery.Some?
    && request.metadata.Some?
    && var m := request.metadata.value;
       var source := TrimLower(m.source);
       var codexStart := IsCodexSessionStart(m) && request.event == Activity;
    && Truthy(m.sessionInstanceId)
    && (|| (source == Some("codex") && ((request.event != Activity && Truthy(m.turnId)) || codexStart))
        || source == Some("claude")
        || source == Some("pi"))
  }

  function CreatePersisted(request: HookRequest, now: int): Option<Record> {
    if !Replayable(request) then None
    else Some(Record(now + TTL_MS, now, None,
                     Request(request.taskId, request.projectId, request.event,
                             NormalizeOption(request.event, request.metadata), request.delivery.value)))
  }

  /** The reply text a directory without a private owner must not hold. */
  function StripText(m: Metadata): Metadata {
    if m.finalMessage.Some? || m.conversationSummaryText.Some?
    then m.(finalMessage := None, conversationSummaryText := None)
    else m
  }

  function StripRequest(r: Request, textAllowed: bool): Request {
    if textAllowed || r.metadata.None? then r else r.(metadata := Some(StripText(r.metadata.value)))
  }

  /** What the atomic write publishes for a document. */
  function Write(document: Stored, textAllowed: bool): Stored {
    document.(request := StripRequest(document.request, textAllowed))
  }

  function Document(r: Record): Stored {
    Stored(r.expiresAt, Some(r.enqueuedAt), r.abandonedAt, r.request)
  }

  /** The replay loader's view of a schema-valid, unexpired document. */
  function Load(document: Stored): Record {
    Record(document.expiresAt,
           if document.enqueuedAt.Some? then document.enqueuedAt.value else document.expiresAt - TTL_MS,
           document.abandonedAt,
           document.request.(metadata := NormalizeOption(document.request.event, document.request.metadata)))
  }

  function MarkAbandoned(document: Stored, now: int): Stored {
    document.(abandonedAt := Some(now))
  }

  // ---------------------------------------------------------------- properties

  lemma NormalizeKeepsClassification(event: HookEvent, m: Metadata)
    ensures IsForegroundCompletion(event, Normalize(event, m)) == IsForegroundCompletion(event, m)
    ensures IsCodexSessionStart(Normalize(event, m)) == IsCodexSessionStart(m)
  {
  }

  lemma BoundedIsStable(text: string)
    requires Trimmed(text) && text != ""
    ensures Trimmed(Bounded(text)) && Bounded(text) != ""
    ensures Bounded(Bounded(text)) == Bounded(text)
    ensures |Bounded(text)| <= COMPLETION_TEXT_MAX_LENGTH + 1
  {
    if |text| > COMPLETION_TEXT_MAX_LENGTH {
      assert Bounded(text)[..COMPLETION_TEXT_MAX_LENGTH] == text[..COMPLETION_TEXT_MAX_LENGTH];
    }
  }

  /** Applying the content policy on write and again on read is the same as applying it once. */
  lemma NormalizeIdempotent(event: HookEvent, m: Metadata)
    ensures Normalize(event, Normalize(event, m)) == Normalize(event, m)
  {
    var n := Normalize(event, m);
    NormalizeKeepsClassification(event, m);
    var text := CompletionText(event, m);
    if Truthy(text) {
      BoundedIsStable(text.value);
      assert CompletionText(event, n) == Some(Bounded(text.value));
    }
  }

  /** At most one bounded content field survives, and only for a foreground completion. */
  lemma NormalizeBoundsContent(event: HookEvent, m: Metadata)
    ensures var n := Normalize(event, m);
            && n.conversationSummaryText.None? && n.transcriptPath.None?
            && n.activityText.None? && n.toolInputSummary.None?
            && (n.finalMessage.Some? ==>
                  && IsForegroundCompletion(event, m)
                  && 0 < |n.finalMessage.value| <= COMPLETION_TEXT_MAX_LENGTH + 1
                  && Trimmed(n.finalMessage.value))
  {
    var text := CompletionText(event, m);
    if Truthy(text) {
      BoundedIsStable(text.value);
    }
  }

  lemma NoTextNoCompletion(event: HookEvent, m: Metadata)
    requires m.finalMessage.None? && m.conversationSummaryText.None?
    ensures CompletionText(event, m).None?
  {
  }

  lemma TextFreeIsStable(event: HookEvent, n: Metadata, s: Metadata)
    requires Normalize(event, n) == n && s == n.(finalMessage := None, conversationSummaryText := None)
    ensures Normalize(event, s) == s
  {
    NoTextNoCompletion(event, s);
    assert IsCodexSessionStart(s) == IsCodexSessionStart(n);
  }

  lemma StripThenNormalize(event: HookEvent, m: Metadata)
    ensures Normalize(event, StripText(Normalize(event, m))) == StripText(Normalize(event, m))
  {
    NormalizeIdempotent(event, m);
    var n := Normalize(event, m);
    if n.finalMessage.Some? || n.conversationSummaryText.Some? {
      TextFreeIsStable(event, n, StripText(n));
    }
  }

  /**
   * Loading what enqueue wrote gives back the created record, up to the reply
   * text a non-private directory drops; an old document without `enqueuedAt`
   * gives back exactly the same record; and an abandonment mark made on the
   * document is the only thing it adds.
   */
  lemma PersistLoadRoundTrip(request: HookRequest, now: int, textAllowed: bool, again: bool, later: int)
    requires CreatePersisted(request, now).Some?
    ensures var r := CreatePersisted(request, now).value;
            var document := Write(Document(r), textAllowed);
            && Load(document) == r.(request := StripRequest(r.request, textAllowed))
            && Load(document.(enqueuedAt := None)) == Load(document)
            && Load(Write(MarkAbandoned(document, later), again))
               == Load(document).(abandonedAt := Some(later),
                                  request := StripRequest(Load(document).request, again))
  {
    var m := request.metadata.value;
    NormalizeIdempotent(request.event, m);
    StripThenNormalize(request.event, m);
  }

  /**
   * Which requests are published: those with a delivery identity and a session instance, of codex
   * with a turn unless it is a mere activity, of codex at the start of a session, of claude and of pi.
   */
  lemma PublishedIff(request: HookRequest, now: int)
    ensures CreatePersisted(request, now).Some? <==>
              && request.delivery.Some? && request.metadata.Some?
              && request.metadata.value.sessionInstanceId.Some? && request.metadata.value.sessionInstanceId != Some("")
              && match TrimLower(request.metadata.value.source)
                 case None => false
                 case Some(source) =>
                   || source == "claude" || source == "pi"
                   || (source == "codex" && request.event != Activity
                       && request.metadata.value.turnId.Some? && request.metadata.value.turnId != Some(""))
                   || (source == "codex" && request.event == Activity
                       && TrimLower(request.metadata.value.hookEventName) == Some("sessionstart"))
    ensures CreatePersisted(request, now).Some? ==>
              var r := CreatePersisted(request, now).value;
              r.enqueuedAt == now && r.expiresAt == now + 600_000 && r.abandonedAt.None?
  {
  }

  /** What a hook says about itself, its agent and its session, without any content. */
  predicate SameIdentity(a: Metadata, b: Metadata) {
    && a.source == b.source && a.sessionId == b.sessionId && a.sessionInstanceId == b.sessionInstanceId
    && a.turnId == b.turnId && a.promptId == b.promptId && a.toolUseId == b.toolUseId
    && a.elicitationId == b.elicitationId && a.providerAgentId == b.providerAgentId
    && a.hookEventName == b.hookEventName && a.toolName == b.toolName && a.notificationType == b.notificationType
    && a.unboundedBackgroundWorkPending == b.unboundedBackgroundWorkPending
  }

  /** The reply of a completion is kept, trimmed and cut: the final message, or else the summary. */
  lemma ReplySurvives(event: HookEvent, m: Metadata)
    ensures var n, reply := Normalize(event, m), Normalize(event, m).finalMessage;
            var final, summary := TrimOption(m.finalMessage), TrimOption(m.conversationSummaryText);
            var text := if final.Some? && final != Some("") then final else summary;
            if IsForegroundCompletion(event, m) && text.Some? && text != Some("")
            then reply.Some? && (if |text.value| <= 500 then reply == text
                                 else reply == Some(text.value[..500] + [ELLIPSIS]))
            else reply.None?
  {
  }

  /** Reply text aside, the server and a later replay see the very request that was captured. */
  lemma ReplayCarriesCapturedRequest(request: HookRequest, now: int, textAllowed: bool)
    requires CreatePersisted(request, now).Some?
    ensures var r := CreatePersisted(request, now).value;
            var replayed := Load(Write(Document(r), textAllowed)).request;
            && replayed.taskId == request.taskId && replayed.projectId == request.projectId
            && replayed.event == request.event && replayed.delivery == request.delivery.value
            && replayed.metadata.Some? && SameIdentity(replayed.metadata.value, request.metadata.value)
            && replayed.metadata.value.finalMessage
               == if textAllowed then Normalize(request.event, request.metadata.value).finalMessage else None
  {
    PersistLoadRoundTrip(request, now, textAllowed, textAllowed, now);
  }

  /**
   * The path of a transcript is never replayed; whether there was one is, for the start of a codex
   * session, and so is how that session started.
   */
  lemma SessionStartSurvives(request: HookRequest, now: int, textAllowed: bool)
    requires CreatePersisted(request, now).Some?
    ensures var replayed := Load(Write(Document(CreatePersisted(request, now).value), textAllowed)).request;
            var m, n := request.metadata.value, replayed.metadata.value;
            && n.transcriptPath.None?
            && if TrimLower(m.source) == Some("codex") && TrimLower(m.hookEventName) == Some("sessionstart")
               then n.sessionStartSource == m.sessionStartSource
                    && (n.sessionStartHasTranscript == Some(true)
                        <==> m.sessionStartHasTranscript == Some(true)
                             || (m.transcriptPath.Some? && Trim(m.transcriptPath.value) != ""))
               else n.sessionStartSource.None? && n.sessionStartHasTranscript.None?
  {
    PersistLoadRoundTrip(request, now, textAllowed, textAllowed, now);
  }

  /** Reply text aside, the server and a later replay see the very same request. */
  lemma ReplayCarriesPublishedRequest(request: HookRequest, now: int, textAllowed: bool)
    requires CreatePersisted(request, now).Some?
    ensures var r := CreatePersisted(request, now).value;
            var replayed := Load(Write(Document(r), textAllowed)).request;
            && replayed.delivery == request.delivery.value
            && replayed.(metadata := None) == r.request.(metadata := None)
            && StripText(replayed.metadata.value) == StripText(Normalize(request.event, request.metadata.value))
  {
    PersistLoadRoundTrip(request, now, textAllowed, textAllowed, now);
  }
}
