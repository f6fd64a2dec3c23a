/**
 * The conversation driver. The remote assistant backend is an oracle
 * (`Backend`) that fixes the answer to every remote call; the driver resolves
 * the thread, posts the query, starts a run, polls it, classifies an
 * unfinished run and extracts the reply. Every remote call it makes is
 * recorded, in order, as a `RemoteCall`.
 */
module OpenAIService {
  import opened Wrappers
  import opened Models

  /** Identifiers of threads of the backend's current API start with this. */
  const ThreadPrefix := "thread_"
  /** Largest number of run-status fetches of one poll loop. */
  const MaxPollAttempts := 30
  const RateLimitCode := "rate_limit_exceeded"
  const AssistantRole := "assistant"

  const QuotaMessage := "The OpenAI API quota has been exceeded. Please check your billing details in the OpenAI dashboard or contact your administrator."
  const AssistantFailedMessage := "The assistant encountered an error while processing your request. This might be because the assistant doesn't have access to the necessary files. Please check your assistant configuration in the OpenAI dashboard and ensure it has the required files uploaded."
  const TookTooLongMessage := "The assistant took too long to respond. Please try again later."
  const TryLaterMessage := "I'm sorry, but I couldn't process your request at this time. Please try again later."
  const GenericErrorMessage := "I'm sorry, but I encountered an error processing your request. Our team has been notified and is working to resolve the issue. Please try again later."
  const NoReplyMessage := "I'm sorry, but I couldn't generate a response at this time."

  // ----- Thread resolution -----

  datatype ThreadPlan = CreateThread | Reuse(id: string)

  /** A null, empty or wrongly prefixed id means a new thread; any other id is reused. */
  function ResolveThread(threadId: Option<string>): (plan: ThreadPlan)
    ensures plan.Reuse? <==> threadId.Some? && ThreadPrefix <= threadId.value
    ensures plan.Reuse? ==> plan.id == threadId.value
  {
    match threadId
    case None => CreateThread
    case Some(id) =>
      if id == "" then CreateThread
      else if !(ThreadPrefix <= id) then CreateThread
      else Reuse(id)
  }

  // ----- Run-status polling -----

  /** The answer to one run-status fetch. */
  datatype PollResult =
    | FetchFailed                   // non-success HTTP status, or a payload without `status`: throws
    | Fetched(status: Option<string>) // `None` when `status` is JSON null

  function StatusName(status: Option<string>): string {
    status.GetOr("unknown")
  }

  predicate IsPending(status: string) {
    status == "queued" || status == "in_progress"
  }

  /** Fetch number `k` (from 0) succeeds and reports a pending run. */
  predicate PendingAt(poll: nat -> PollResult, k: nat) {
    poll(k).Fetched? && IsPending(StatusName(poll(k).status))
  }

  datatype WaitOutcome = RunEnded(status: string) | WaitThrew

  /**
   * The poll loop once `k` fetches have been made: its outcome and the total
   * number of fetches. A pending answer to the last allowed fetch becomes the
   * synthetic status "timeout".
   */
  function PollFrom(poll: nat -> PollResult, k: nat): (r: (WaitOutcome, nat))
    requires k < MaxPollAttempts
    ensures k < r.1 <= MaxPollAttempts
    ensures r.0.RunEnded? ==> !IsPending(r.0.status)
    decreases MaxPollAttempts - k
  {
    match poll(k)
    case FetchFailed => (WaitThrew, k + 1)
    case Fetched(s) =>
      var status := StatusName(s);
      if k + 1 >= MaxPollAttempts && IsPending(status) then (RunEnded("timeout"), k + 1)
      else if IsPending(status) then PollFrom(poll, k + 1)
      else (RunEnded(status), k + 1)
  }

  function WaitResult(poll: nat -> PollResult): (WaitOutcome, nat) {
    PollFrom(poll, 0)
  }

  /** The loop stops at the first fetch that fails or reports a settled status. */
  lemma {:induction false} PollSettlesAt(poll: nat -> PollResult, k: nat, i: nat)
    requires k <= i < MaxPollAttempts
    requires forall j :: k <= j < i ==> PendingAt(poll, j)
    requires !PendingAt(poll, i)
    ensures PollFrom(poll, k) ==
            (if poll(i).FetchFailed? then WaitThrew else RunEnded(StatusName(poll(i).status)), i + 1)
    decreases i - k
  {
    if k < i {
      assert PendingAt(poll, k);
      PollSettlesAt(poll, k + 1, i);
    }
  }

  /** A run pending at every allowed fetch times out after exactly the budget. */
  lemma {:induction false} PollTimesOut(poll: nat -> PollResult, k: nat)
    requires k < MaxPollAttempts
    requires forall j :: k <= j < MaxPollAttempts ==> PendingAt(poll, j)
    ensures PollFrom(poll, k) == (RunEnded("timeout"), MaxPollAttempts)
    decreases MaxPollAttempts - k
  {
    assert PendingAt(poll, k);
    if k + 1 < MaxPollAttempts {
      PollTimesOut(poll, k + 1);
    }
  }

  /** The fetch loop: at most `MaxPollAttempts` fetches, stopping at the first settled status. */
  method WaitForRunCompletion(poll: nat -> PollResult) returns (outcome: WaitOutcome, fetches: nat)
    ensures (outcome, fetches) == WaitResult(poll)
  {
    var status := "queued";
    var attempts := 0;
    while true
      invariant attempts < MaxPollAttempts
      invariant PollFrom(poll, attempts) == WaitResult(poll)
      decreases MaxPollAttempts - attempts
    {
      attempts := attempts + 1;
      var response := poll(attempts - 1);
      if response.FetchFailed? {
        return WaitThrew, attempts;
      }
      status := StatusName(response.status);
      if attempts >= MaxPollAttempts && IsPending(status) {
        return RunEnded("timeout"), attempts;
      }
      if !IsPending(status) {
        break;
      }
    }
    return RunEnded(status), attempts;
  }

  // ----- Reply extraction -----

  /** The first block of a message's `content` array, as far as the scan reads it. */
  datatype ContentBlock =
    | NoBlock                         // the array is empty: reading the default element throws
    | Malformed                       // the block, its `text` or its `value` has the wrong JSON kind: throws
    | NoTextValue                     // an object without `text.value`
    | TextValue(value: Option<string>) // `text.value`; `None` when it is JSON null

  datatype ThreadMessage =
    | Message(role: Option<string>, firstBlock: ContentBlock) // `role` is `None` when JSON null
    | Unreadable                                              // no readable `role`: throws

  /** The answer to the list-messages call. */
  datatype MessageList =
    | ListFailed                    // non-success HTTP status, or a payload without `data`
    | Listed(data: seq<ThreadMessage>)

  datatype Scan = Found(text: string) | NoneFound | ScanThrew

  /** The scan of the listed messages, in the order the backend lists them. */
  function ScanMessages(messages: seq<ThreadMessage>): Scan
    decreases |messages|
  {
    if messages == [] then NoneFound
    else match messages[0]
      case Unreadable => ScanThrew
      case Message(role, block) =>
        if role != Some(AssistantRole) then ScanMessages(messages[1..])
        else match block
          case TextValue(value) => Found(value.GetOr(""))
          case NoTextValue => ScanMessages(messages[1..])
          case _ => ScanThrew
  }

  function ReplyText(list: MessageList): string {
    match list
    case ListFailed => GenericErrorMessage
    case Listed(messages) =>
      match ScanMessages(messages)
      case Found(text) => text
      case NoneFound => NoReplyMessage
      case ScanThrew => GenericErrorMessage
  }

  /** A message the scan passes over: not the assistant's, or the assistant's without a text value. */
  predicate Skipped(m: ThreadMessage) {
    m.Message? && (m.role != Some(AssistantRole) || m.firstBlock.NoTextValue?)
  }

  /** What the scan makes of the first message it does not pass over. */
  function Verdict(m: ThreadMessage): Scan {
    if m.Message? && m.role == Some(AssistantRole) && m.firstBlock.TextValue?
    then Found(m.firstBlock.value.GetOr(""))
    else ScanThrew
  }

  /** The scan is decided by the first message it does not pass over. */
  lemma {:induction false} ScanDecidedAt(messages: seq<ThreadMessage>, i: nat)
    requires i < |messages|
    requires forall j :: 0 <= j < i ==> Skipped(messages[j])
    requires !Skipped(messages[i])
    ensures ScanMessages(messages) == Verdict(messages[i])
    decreases i
  {
    if i > 0 {
      assert Skipped(messages[0]);
      forall j | 0 <= j < i - 1
        ensures Skipped(messages[1..][j])
      {
        assert messages[1..][j] == messages[j + 1];
      }
      ScanDecidedAt(messages[1..], i - 1);
    }
  }

  /** Nothing is found exactly when every message is passed over. */
  lemma {:induction false} ScanFindsNothing(messages: seq<ThreadMessage>)
    ensures ScanMessages(messages) == NoneFound <==> forall j :: 0 <= j < |messages| ==> Skipped(messages[j])
    decreases |messages|
  {
    if messages != [] {
      ScanFindsNothing(messages[1..]);
      if forall j :: 0 <= j < |messages| ==> Skipped(messages[j]) {
        forall j | 0 <= j < |messages[1..]|
          ensures Skipped(messages[1..][j])
        {
          assert messages[1..][j] == messages[j + 1];
        }
      }
      if ScanMessages(messages) == NoneFound {
        forall j | 0 <= j < |messages|
          ensures Skipped(messages[j])
        {
          if j > 0 {
            assert messages[j] == messages[1..][j - 1];
          }
        }
      }
    }
  }

  /** The foreach scan with early return over the listed messages. */
  method GetLatestAssistantMessage(list: MessageList) returns (reply: string)
    ensures reply == ReplyText(list)
  {
    if list.ListFailed? {
      return GenericErrorMessage;
    }
    var messages := list.data;
    for i := 0 to |messages|
      invariant ScanMessages(messages[i..]) == ScanMessages(messages)
    {
      assert messages[i..][1..] == messages[i + 1..];
      match messages[i]
      case Unreadable =>
        return GenericErrorMessage;
      case Message(role, block) =>
        if role == Some(AssistantRole) {
          match block
          case TextValue(value) =>
            return value.GetOr("");
          case NoTextValue =>
          case _ =>
            return GenericErrorMessage;
        }
    }
    assert messages[|messages|..] == [];
    return NoReplyMessage;
  }

  // ----- Classification of an unfinished run -----

  /** The answer to the second run fetch, made only to read `last_error.code`. */
  datatype ErrorProbe =
    | ProbeFailed                        // non-success HTTP status, or an exception while reading it
    | Probed(lastErrorCode: Option<string>) // `None`: no `last_error`, a null one, or one without a code

  predicate IsRateLimited(probe: ErrorProbe) {
    probe == Probed(Some(RateLimitCode))
  }

  datatype FailureKind = QuotaExceeded | AssistantFailed | TookTooLong | TryLater

  /** The rate-limit check comes first, then "failed", then "timeout". */
  function ClassifyFailure(rateLimited: bool, status: string): (kind: FailureKind)
    ensures kind == QuotaExceeded <==> rateLimited
    ensures kind == AssistantFailed <==> !rateLimited && status == "failed"
    ensures kind == TookTooLong <==> !rateLimited && status == "timeout"
    ensures kind == TryLater <==> !rateLimited && status != "failed" && status != "timeout"
  {
    if rateLimited then QuotaExceeded
    else if status == "failed" then AssistantFailed
    else if status == "timeout" then TookTooLong
    else TryLater
  }

  function FailureMessage(kind: FailureKind): string {
    match kind
    case QuotaExceeded => QuotaMessage
    case AssistantFailed => AssistantFailedMessage
    case TookTooLong => TookTooLongMessage
    case TryLater => TryLaterMessage
  }

  /** The four messages tell the kinds apart, and none is the generic apology. */
  lemma FailureMessagesDistinct(a: FailureKind, b: FailureKind)
    ensures FailureMessage(a) == FailureMessage(b) ==> a == b
    ensures FailureMessage(a) != GenericErrorMessage
  {
  }

  // ----- The whole query -----

  /** The backend's answer to each remote call of one query. */
  datatype Backend = Backend(
    createThread: Option<string>, // id of the new thread; `None`: creating it throws
    addMessageSucceeds: bool,
    createRun: Option<string>,    // id of the new run; `None`: creating it throws
    poll: nat -> PollResult,      // answer to fetch number k (from 0) of the run's status
    probe: ErrorProbe,
    messages: MessageList)

  /** The remote calls of a query; messages are always posted with role "user". */
  datatype RemoteCall =
    | CreateThreadCall
    | AddMessageCall(threadId: string, content: string)
    | CreateRunCall(threadId: string, assistantId: string)
    | PollRunCall(threadId: string, runId: string)
    | ErrorCheckCall(threadId: string, runId: string)
    | ListMessagesCall(threadId: string)

  function PollCalls(threadId: string, runId: string, n: nat): seq<RemoteCall> {
    seq(n, _ => PollRunCall(threadId, runId))
  }

  /** The response of the top-level catch: the caller's own thread id, or "". */
  function Apology(threadId: Option<string>): QueryResponse {
    QueryResponse(GenericErrorMessage, Some([]), threadId.GetOr(""))
  }

  /** The thread the query runs on; `None` when creating it throws. */
  function ResolvedThread(threadId: Option<string>, backend: Backend): Option<string> {
    match ResolveThread(threadId)
    case CreateThread => backend.createThread
    case Reuse(id) => Some(id)
  }

  /** Whether some step before classification throws into the top-level catch. */
  predicate CatchPathTaken(threadId: Option<string>, backend: Backend) {
    || ResolvedThread(threadId, backend).None?
    || !backend.addMessageSucceeds
    || backend.createRun.None?
    || WaitResult(backend.poll).0.WaitThrew?
  }

  /** The response of a query and the remote calls it makes: the functional reading of `ProcessQuery`. */
  function QueryOutcome(query: string, threadId: Option<string>, assistantId: string, backend: Backend)
    : (QueryResponse, seq<RemoteCall>)
  {
    var created := if ResolveThread(threadId).CreateThread? then [CreateThreadCall] else [];
    match ResolvedThread(threadId, backend)
    case None => (Apology(threadId), created)
    case Some(current) =>
      var posted := created + [AddMessageCall(current, query)];
      if !backend.addMessageSucceeds then (Apology(threadId), posted)
      else
        var started := posted + [CreateRunCall(current, assistantId)];
        match backend.createRun
        case None => (Apology(threadId), started)
        case Some(runId) =>
          var polled := started + PollCalls(current, runId, WaitResult(backend.poll).1);
          match WaitResult(backend.poll).0
          case WaitThrew => (Apology(threadId), polled)
          case RunEnded(status) =>
            if status != "completed" then
              var kind := ClassifyFailure(IsRateLimited(backend.probe), status);
              (QueryResponse(FailureMessage(kind), Some([]), current), polled + [ErrorCheckCall(current, runId)])
            else
              (QueryResponse(ReplyText(backend.messages), Some([]), current), polled + [ListMessagesCall(current)])
  }

  /** Thread resolution, posting, run creation, polling, then classification or extraction. */
  method ProcessQuery(query: string, context: RouteContext, threadId: Option<string>, assistantId: string, backend: Backend)
    returns (response: QueryResponse, calls: seq<RemoteCall>)
    ensures (response, calls) == QueryOutcome(query, threadId, assistantId, backend)
  {
    calls := [];
    var currentThreadId: string;
    match ResolveThread(threadId) {
      case CreateThread =>
        calls := calls + [CreateThreadCall];
        if backend.createThread.None? {
          assert calls == [CreateThreadCall];
          assert QueryOutcome(query, threadId, assistantId, backend) == (Apology(threadId), calls);
          return Apology(threadId), calls;
        }
        currentThreadId := backend.createThread.value;
      case Reuse(id) =>
        currentThreadId := id;
    }
    calls := calls + [AddMessageCall(currentThreadId, query)];
    if !backend.addMessageSucceeds {
      return Apology(threadId), calls;
    }
    calls := calls + [CreateRunCall(currentThreadId, assistantId)];
    if backend.createRun.None? {
      return Apology(threadId), calls;
    }
    var runId := backend.createRun.value;
    var runStatus, fetches := WaitForRunCompletion(backend.poll);
    calls := calls + PollCalls(currentThreadId, runId, fetches);
    if runStatus.WaitThrew? {
      return Apology(threadId), calls;
    }
    if runStatus.status != "completed" {
      var isRateLimitError := IsRateLimited(backend.probe);
      calls := calls + [ErrorCheckCall(currentThreadId, runId)];
      var errorMessage := FailureMessage(ClassifyFailure(isRateLimitError, runStatus.status));
      return QueryResponse(errorMessage, Some([]), currentThreadId), calls;
    }
    var assistantMessage := GetLatestAssistantMessage(backend.messages);
    calls := calls + [ListMessagesCall(currentThreadId)];
    return QueryResponse(assistantMessage, Some([]), currentThreadId), calls;
  }

  // ----- Properties of a query -----

  /** Every call other than thread creation is made on `thread`. */
  ghost predicate OnThread(calls: seq<RemoteCall>, thread: string) {
    forall i :: 0 <= i < |calls| && !calls[i].CreateThreadCall? ==> calls[i].threadId == thread
  }

  /** A new thread is created first and only once, or not at all; everything else runs on the resolved thread. */
  lemma ThreadCalls(query: string, threadId: Option<string>, assistantId: string, backend: Backend)
    ensures var calls := QueryOutcome(query, threadId, assistantId, backend).1;
      && (ResolveThread(threadId).CreateThread? ==>
            calls != [] && calls[0] == CreateThreadCall && CreateThreadCall !in calls[1..])
      && (ResolveThread(threadId).Reuse? ==> CreateThreadCall !in calls)
      && (ResolvedThread(threadId, backend).Some? ==> OnThread(calls, ResolvedThread(threadId, backend).value))
  {
  }

  /** The response carries no actions, and the resolved thread unless the catch path is taken. */
  lemma ResponseThread(query: string, threadId: Option<string>, assistantId: string, backend: Backend)
    ensures var response := QueryOutcome(query, threadId, assistantId, backend).0;
      && response.actions == Some([])
      && (CatchPathTaken(threadId, backend) ==>
            response.message == GenericErrorMessage && response.threadId == threadId.GetOr(""))
      && (!CatchPathTaken(threadId, backend) ==> response.threadId == ResolvedThread(threadId, backend).value)
  {
  }

  /** No id or an empty one: one thread is created and its id is used, prefixed or not. */
  lemma EmptyThreadIdCreatesThread(query: string, threadId: Option<string>, assistantId: string, backend: Backend)
    requires threadId == None || threadId == Some("")
    ensures var (response, calls) := QueryOutcome(query, threadId, assistantId, backend);
      && calls != [] && calls[0] == CreateThreadCall && CreateThreadCall !in calls[1..]
      && (backend.createThread.Some? ==> OnThread(calls, backend.createThread.value))
      && response.threadId == (if CatchPathTaken(threadId, backend) then "" else backend.createThread.value)
  {
    ThreadCalls(query, threadId, assistantId, backend);
    ResponseThread(query, threadId, assistantId, backend);
  }

  /** A non-empty id without the prefix is never used: a fresh thread replaces it. */
  lemma MalformedThreadIdReplaced(query: string, id: string, assistantId: string, backend: Backend)
    requires id != "" && !(ThreadPrefix <= id)
    ensures var (response, calls) := QueryOutcome(query, Some(id), assistantId, backend);
      && calls != [] && calls[0] == CreateThreadCall && CreateThreadCall !in calls[1..]
      && (backend.createThread.Some? ==> OnThread(calls, backend.createThread.value))
      && (backend.createThread.Some? && backend.createThread.value != id ==>
            forall i :: 0 <= i < |calls| && !calls[i].CreateThreadCall? ==> calls[i].threadId != id)
      && response.threadId == (if CatchPathTaken(Some(id), backend) then id else backend.createThread.value)
  {
    ThreadCalls(query, Some(id), assistantId, backend);
    ResponseThread(query, Some(id), assistantId, backend);
  }

  /** A prefixed id is reused verbatim: no thread is created and the response carries it. */
  lemma PrefixedThreadIdReused(query: string, id: string, assistantId: string, backend: Backend)
    requires ThreadPrefix <= id
    ensures var (response, calls) := QueryOutcome(query, Some(id), assistantId, backend);
      && CreateThreadCall !in calls
      && OnThread(calls, id)
      && response.threadId == id
  {
    ThreadCalls(query, Some(id), assistantId, backend);
    ResponseThread(query, Some(id), assistantId, backend);
  }

  /** The message posted to the thread is the raw query. */
  lemma PostsRawQuery(query: string, threadId: Option<string>, assistantId: string, backend: Backend)
    ensures var calls := QueryOutcome(query, threadId, assistantId, backend).1;
      && (forall i :: 0 <= i < |calls| && calls[i].AddMessageCall? ==> calls[i].content == query)
      && (ResolvedThread(threadId, backend).Some? ==>
            AddMessageCall(ResolvedThread(threadId, backend).value, query) in calls)
  {
  }

  /** Number of run-status fetches in a call sequence. */
  function PollCount(calls: seq<RemoteCall>): nat
    decreases |calls|
  {
    if calls == [] then 0
    else PollCount(calls[..|calls| - 1]) + (if calls[|calls| - 1].PollRunCall? then 1 else 0)
  }

  lemma {:induction false} PollCountAppend(a: seq<RemoteCall>, b: seq<RemoteCall>)
    ensures PollCount(a + b) == PollCount(a) + PollCount(b)
    decreases |b|
  {
    if b != [] {
      assert (a + b)[..|a + b| - 1] == a + b[..|b| - 1];
      PollCountAppend(a, b[..|b| - 1]);
    } else {
      assert a + b == a;
    }
  }

  lemma {:induction false} PollCountOfPolls(threadId: string, runId: string, n: nat)
    ensures PollCount(PollCalls(threadId, runId, n)) == n
  {
    if n > 0 {
      assert PollCalls(threadId, runId, n)[..n - 1] == PollCalls(threadId, runId, n - 1);
      PollCountOfPolls(threadId, runId, n - 1);
    }
  }

  lemma PollCountAfter(calls: seq<RemoteCall>, call: RemoteCall)
    requires !call.PollRunCall?
    ensures PollCount(calls + [call]) == PollCount(calls)
  {
    assert (calls + [call])[..|calls|] == calls;
  }

  /** A query fetches the run status at most `MaxPollAttempts` times. */
  lemma PollBudget(query: string, threadId: Option<string>, assistantId: string, backend: Backend)
    ensures var calls := QueryOutcome(query, threadId, assistantId, backend).1;
      && PollCount(calls) <= MaxPollAttempts
      && (ResolvedThread(threadId, backend).Some? && backend.addMessageSucceeds && backend.createRun.Some? ==>
            PollCount(calls) == WaitResult(backend.poll).1)
  {
    var outcome := QueryOutcome(query, threadId, assistantId, backend);
    var created: seq<RemoteCall> := if ResolveThread(threadId).CreateThread? then [CreateThreadCall] else [];
    assert PollCount(created) == 0 by {
      if created != [] {
        assert created == [] + [CreateThreadCall];
        PollCountAfter([], CreateThreadCall);
      }
    }
    match ResolvedThread(threadId, backend)
    case None =>
      assert outcome.1 == created;
    case Some(current) =>
      var posted := created + [AddMessageCall(current, query)];
      PollCountAfter(created, AddMessageCall(current, query));
      if !backend.addMessageSucceeds {
        assert outcome.1 == posted;
      } else {
        var started := posted + [CreateRunCall(current, assistantId)];
        PollCountAfter(posted, CreateRunCall(current, assistantId));
        match backend.createRun
        case None =>
          assert outcome.1 == started;
        case Some(runId) =>
          var polled := started + PollCalls(current, runId, WaitResult(backend.poll).1);
          PollCountAppend(started, PollCalls(current, runId, WaitResult(backend.poll).1));
          PollCountOfPolls(current, runId, WaitResult(backend.poll).1);
          match WaitResult(backend.poll).0
          case WaitThrew =>
            assert outcome.1 == polled;
          case RunEnded(status) =>
            var last := if status != "completed" then ErrorCheckCall(current, runId) else ListMessagesCall(current);
            assert outcome.1 == polled + [last];
            PollCountAfter(polled, last);
      }
  }

  /** A settled, unfinished run is classified; the only call after polling reads its error code. */
  lemma UnfinishedRunClassified(query: string, threadId: Option<string>, assistantId: string, backend: Backend)
    requires !CatchPathTaken(threadId, backend)
    requires WaitResult(backend.poll).0.status != "completed"
    ensures var (response, calls) := QueryOutcome(query, threadId, assistantId, backend);
      && response.message in {QuotaMessage, AssistantFailedMessage, TookTooLongMessage, TryLaterMessage}
      && (IsRateLimited(backend.probe) ==> response.message == QuotaMessage)
      && (!IsRateLimited(backend.probe) && WaitResult(backend.poll).0.status == "failed" ==>
            response.message == AssistantFailedMessage)
      && (!IsRateLimited(backend.probe) && WaitResult(backend.poll).0.status == "timeout" ==>
            response.message == TookTooLongMessage)
      && (!IsRateLimited(backend.probe) && WaitResult(backend.poll).0.status !in {"failed", "timeout"} ==>
            response.message == TryLaterMessage)
      && calls[|calls| - 1] == ErrorCheckCall(ResolvedThread(threadId, backend).value, backend.createRun.value)
  {
  }

  /** A completed run answers with the extracted reply, read by one list-messages call. */
  lemma CompletedRunReplies(query: string, threadId: Option<string>, assistantId: string, backend: Backend)
    requires !CatchPathTaken(threadId, backend)
    requires WaitResult(backend.poll).0.status == "completed"
    ensures var (response, calls) := QueryOutcome(query, threadId, assistantId, backend);
      && response.message == ReplyText(backend.messages)
      && calls[|calls| - 1] == ListMessagesCall(ResolvedThread(threadId, backend).value)
  {
  }

  /**
   * A run still pending at the 30th poll is reported as too slow (unless
   * rate-limited): 30 polls, then one error-code fetch of the same run as the
   * last call.
   */
  lemma StuckRunTimesOut(query: string, threadId: Option<string>, assistantId: string, backend: Backend)
    requires ResolvedThread(threadId, backend).Some? && backend.addMessageSucceeds && backend.createRun.Some?
    requires forall j :: 0 <= j < MaxPollAttempts ==> PendingAt(backend.poll, j)
    ensures var (response, calls) := QueryOutcome(query, threadId, assistantId, backend);
      && PollCount(calls) == MaxPollAttempts
      && calls[|calls| - 1] == ErrorCheckCall(ResolvedThread(threadId, backend).value, backend.createRun.value)
      && response.message == (if IsRateLimited(backend.probe) then QuotaMessage else TookTooLongMessage)
      && response.threadId == ResolvedThread(threadId, backend).value
  {
    PollTimesOut(backend.poll, 0);
    PollBudget(query, threadId, assistantId, backend);
  }
}
