/** The decision logic of the client `COB` (src/cob_ai/client.py) around its
    HTTP calls. Every response is an input: the start-sync reply, the sequence of
    replies the status endpoint gives on successive polls, and the search reply.
    A keyboard interrupt is an input too: the number of status fetches that
    completed before Ctrl+C, if it is pressed at all. An exception the client
    raises is an `Err`. */
module Client {
  import opened Wrappers
  import opened Runtime
  import opened Models

  /** Why a client call raises. */
  datatype ClientError =
    | HttpError(code: int)   // `raise_for_status` on a 4xx or 5xx reply
    | MalformedBody          // the JSON is not an object, or its keys do not match the response record
    | UnrenderableStatus     // `print(status)` fails on an unconverted failed document

  /** The status codes `raise_for_status` rejects. */
  predicate IsHttpError(code: int) {
    400 <= code < 600
  }

  const ConflictMessage := "A sync operation is already in progress"

  /** The reply to `POST /sync/`; `body` is absent when its JSON is not an
      object or its keys do not match the fields of `SyncStartResponse`. The
      values are taken to have the declared types. */
  datatype StartReply = StartReply(code: int, body: Option<SyncStartResponse>)

  /** The JSON of `GET /sync/status` as it arrives, before normalisation. */
  datatype RawStatus = RawStatus(
    isSyncRunning: bool,
    syncRuntimeSeconds: Option<real>,
    syncedFolders: seq<string>,
    successfullySyncedCount: int,
    failedDocumentsCount: int,
    failedDocuments: seq<RawFailure>)

  /** The reply to `GET /sync/status`; `body` is absent when its JSON is not an
      object or its keys do not match the fields of `SyncStatusResponse`. The
      values are taken to have the declared types. */
  datatype StatusReply = StatusReply(code: int, body: Option<RawStatus>)

  // ---------------------------------------------------------------------
  // _get_status_quietly

  /** A failed document built from a JSON object, with "" for every missing key. */
  function FromDict(fields: map<string, string>): (doc: FailedDocumentInfo)
    ensures doc.filename == (if "filename" in fields then fields["filename"] else "")
    ensures doc.folder == (if "folder" in fields then fields["folder"] else "")
    ensures doc.errorMessage == (if "error_message" in fields then fields["error_message"] else "")
  {
    FailedDocumentInfo(DictGet(fields, "filename", ""), DictGet(fields, "folder", ""),
                       DictGet(fields, "error_message", ""))
  }

  /** One element of the conversion: an object becomes a record, anything else stays. */
  function Convert(raw: RawFailure): FailureItem {
    match raw
    case Dict(fields) => Info(FromDict(fields))
    case NonDict(_) => Raw(raw)
  }

  /** The list comprehension that converts every element. */
  function ConvertAll(raw: seq<RawFailure>): (items: seq<FailureItem>)
    ensures |items| == |raw|
    ensures forall i :: 0 <= i < |raw| ==> items[i] == Convert(raw[i])
  {
    if raw == [] then [] else [Convert(raw[0])] + ConvertAll(raw[1..])
  }

  /** Every element kept as it came. */
  function KeepAll(raw: seq<RawFailure>): (items: seq<FailureItem>)
    ensures |items| == |raw|
    ensures forall i :: 0 <= i < |raw| ==> items[i] == Raw(raw[i])
  {
    seq(|raw|, i requires 0 <= i < |raw| => Raw(raw[i]))
  }

  /** The normalisation of `failed_documents`: the list is converted only when it
      is non-empty and its first element is an object; otherwise it is left as it
      came. Length and order are kept either way. */
  function Normalize(raw: seq<RawFailure>): (items: seq<FailureItem>)
    ensures |items| == |raw|
    ensures raw != [] && raw[0].Dict? ==>
      forall i :: 0 <= i < |raw| ==>
        (raw[i].Dict? ==> items[i] == Info(FromDict(raw[i].fields))) && (raw[i].NonDict? ==> items[i] == Raw(raw[i]))
    ensures !(raw != [] && raw[0].Dict?) ==> forall i :: 0 <= i < |raw| ==> items[i] == Raw(raw[i])
  {
    if raw != [] && raw[0].Dict? then ConvertAll(raw) else KeepAll(raw)
  }

  /** The normalised list is all records exactly when every element arrived as an
      object: one non-object element anywhere, even in first place where it stops
      the conversion of all the others, leaves an unconverted element behind. */
  lemma NormalizeAllRecordsIffAllDicts(raw: seq<RawFailure>)
    ensures AllInfos(Normalize(raw)) <==> forall i :: 0 <= i < |raw| ==> raw[i].Dict?
  {
    var items := Normalize(raw);
    if forall i :: 0 <= i < |raw| ==> raw[i].Dict? {
      if raw != [] {
        assert forall i :: 0 <= i < |raw| ==> items[i] == Info(FromDict(raw[i].fields));
      }
    } else {
      var j :| 0 <= j < |raw| && raw[j].NonDict?;
      if raw[0].Dict? {
        assert items[j] == Raw(raw[j]);
      } else {
        assert items[0] == Raw(raw[0]);
      }
    }
  }

  /** `_get_status_quietly`: the reply's fields as sent, with `failed_documents`
      normalised. */
  function GetStatusQuietly(reply: StatusReply): (r: Result<SyncStatusResponse, ClientError>)
    ensures IsHttpError(reply.code) ==> r == Err(HttpError(reply.code))
    ensures !IsHttpError(reply.code) && reply.body.None? ==> r == Err(MalformedBody)
    ensures r.Ok? <==> !IsHttpError(reply.code) && reply.body.Some?
    ensures r.Ok? ==>
      var raw := reply.body.value;
      r.value.isSyncRunning == raw.isSyncRunning
      && r.value.syncRuntimeSeconds == raw.syncRuntimeSeconds
      && r.value.syncedFolders == raw.syncedFolders
      && r.value.successfullySyncedCount == raw.successfullySyncedCount
      && r.value.failedDocumentsCount == raw.failedDocumentsCount
      && r.value.failedDocuments == Normalize(raw.failedDocuments)
  {
    if IsHttpError(reply.code) then Err(HttpError(reply.code))
    else if reply.body.None? then Err(MalformedBody)
    else
      var raw := reply.body.value;
      Ok(SyncStatusResponse(raw.isSyncRunning, raw.syncRuntimeSeconds, raw.syncedFolders,
                            raw.successfullySyncedCount, raw.failedDocumentsCount,
                            Normalize(raw.failedDocuments)))
  }

  /** A fetched status can be printed exactly when every failed document arrived
      as an object. */
  lemma FetchedStatusRenders(reply: StatusReply)
    requires GetStatusQuietly(reply).Ok?
    ensures StatusView(GetStatusQuietly(reply).value).Some?
        <==> forall i :: 0 <= i < |reply.body.value.failedDocuments| ==> reply.body.value.failedDocuments[i].Dict?
  {
    NormalizeAllRecordsIffAllDicts(reply.body.value.failedDocuments);
  }

  // ---------------------------------------------------------------------
  // The poll loop of start_sync, as functions of the replies

  /** A reply that ends the loop: the fetch raises, or the sync is no longer running. */
  predicate EndsPolling(reply: StatusReply) {
    IsHttpError(reply.code) || reply.body.None? || !reply.body.value.isSyncRunning
  }

  /** Stated on the fetched status: the loop ends when `_get_status_quietly`
      raises or returns a status that is not running. */
  lemma EndsPollingOnFetch(reply: StatusReply)
    ensures EndsPolling(reply) <==> GetStatusQuietly(reply).Err? || !GetStatusQuietly(reply).value.isSyncRunning
  {
  }

  /** The index of the first reply that ends the loop, or `|replies|` when none does. */
  function FirstEnd(replies: seq<StatusReply>): (k: nat)
    ensures k <= |replies|
    ensures k < |replies| ==> EndsPolling(replies[k])
  {
    if replies == [] then 0
    else if EndsPolling(replies[0]) then 0
    else 1 + FirstEnd(replies[1..])
  }

  /** Every reply before `FirstEnd` keeps the loop going. */
  lemma {:induction false} FirstEndIsFirst(replies: seq<StatusReply>, i: nat)
    requires i < FirstEnd(replies)
    ensures !EndsPolling(replies[i])
  {
    if i > 0 {
      FirstEndIsFirst(replies[1..], i - 1);
    }
  }

  /** The spinner text for a truthy runtime `x`. */
  function RuntimeLabel(x: real): string {
    "Syncing (" + Elapsed(Truncate(x)) + ")"
  }

  /** A non-negative runtime is shown as whole seconds in the label, split into
      minutes and seconds below 60: reading the label gives `int(x)` back. */
  lemma RuntimeLabelShowsRuntime(x: real)
    requires x >= 0.0
    ensures ReadParenthesised("Syncing ", RuntimeLabel(x)) == Some(Truncate(x))
  {
    assert RuntimeLabel(x) == "Syncing " + "(" + Elapsed(Truncate(x)) + ")";
    ParenthesisedShowsSeconds("Syncing ", Truncate(x));
  }

  /** The labels one polled reply adds: a new one exactly when the status is
      running with a truthy runtime. */
  function Relabel(reply: StatusReply): seq<string> {
    if !EndsPolling(reply) && Truthy(reply.body.value.syncRuntimeSeconds)
    then [RuntimeLabel(reply.body.value.syncRuntimeSeconds.value)] else []
  }

  /** The labels the spinner shows, in order, while the replies `polled` are
      processed: "Syncing" first, then one per refresh. */
  function SpinnerLabels(polled: seq<StatusReply>): (labels: seq<string>)
    ensures 1 <= |labels| <= |polled| + 1 && labels[0] == "Syncing"
  {
    if polled == [] then ["Syncing"]
    else SpinnerLabels(polled[..|polled| - 1]) + Relabel(polled[|polled| - 1])
  }

  /** With no truthy runtime among the polled statuses the label never changes. */
  lemma {:induction false} SpinnerKeepsLabelWithoutRuntime(polled: seq<StatusReply>)
    requires forall i :: 0 <= i < |polled| ==> Relabel(polled[i]) == []
    ensures SpinnerLabels(polled) == ["Syncing"]
  {
    if polled != [] {
      SpinnerKeepsLabelWithoutRuntime(polled[..|polled| - 1]);
    }
  }

  /** Each running status refreshes the label exactly when its runtime is truthy,
      and then to that runtime. */
  lemma SpinnerRefreshesOnTruthyRuntime(polled: seq<StatusReply>, reply: StatusReply)
    requires GetStatusQuietly(reply).Ok? && GetStatusQuietly(reply).value.isSyncRunning
    ensures var runtime := GetStatusQuietly(reply).value.syncRuntimeSeconds;
      SpinnerLabels(polled + [reply])
      == SpinnerLabels(polled) + (if Truthy(runtime) then [RuntimeLabel(runtime.value)] else [])
  {
    assert (polled + [reply])[..|polled|] == polled;
  }

  /** What a `start_sync` call does: its result, how many status fetches it made,
      the spinner labels it showed, whether Ctrl+C ended the wait, and the final
      status it printed. */
  datatype SyncRun = SyncRun(
    result: Result<SyncStartResponse, ClientError>,
    fetches: nat,
    labels: seq<string>,
    interrupted: bool,
    final: Option<SyncStatusResponse>)

  /** No wait: a run that returns (or raises) without polling. */
  function Returned(result: Result<SyncStartResponse, ClientError>): SyncRun {
    SyncRun(result, 0, [], false, None)
  }

  /** The start reply leads into the poll loop. */
  predicate Waits(start: StartReply, waitForCompletion: bool) {
    start.code != 409 && !IsHttpError(start.code) && start.body.Some?
    && start.body.value.success && waitForCompletion
  }

  /** The loop terminates on these inputs: some reply ends it, or Ctrl+C comes
      before the replies run out. */
  predicate Finishes(replies: seq<StatusReply>, interrupt: Option<nat>) {
    FirstEnd(replies) < |replies| || (interrupt.Some? && interrupt.value <= |replies|)
  }

  /** The end of a wait at a reply that ends the loop: the fetch raises, or the
      status is printed (which raises when it cannot be rendered), and the start
      response is returned. */
  function StopRun(startResponse: SyncStartResponse, fetches: nat, labels: seq<string>, reply: StatusReply): (run: SyncRun)
    ensures run.fetches == fetches && run.labels == labels && !run.interrupted
    ensures run.final.Some? <==> run.result.Ok?
    ensures run.final.Some? ==> GetStatusQuietly(reply) == Ok(run.final.value)
    ensures run.result.Ok? ==> run.result.value == startResponse
    ensures GetStatusQuietly(reply).Err? ==> run.result == Err(GetStatusQuietly(reply).error)
  {
    match GetStatusQuietly(reply)
    case Err(e) => SyncRun(Err(e), fetches, labels, false, None)
    case Ok(status) =>
      // `print(status)` raises exactly when StatusView has no text
      if !AllInfos(status.failedDocuments) then SyncRun(Err(UnrenderableStatus), fetches, labels, false, None)
      else SyncRun(Ok(startResponse), fetches, labels, false, Some(status))
  }

  /** The poll loop as a function of the replies and the interrupt. */
  function PollRun(startResponse: SyncStartResponse, replies: seq<StatusReply>, interrupt: Option<nat>): SyncRun
    requires Finishes(replies, interrupt)
  {
    var k := FirstEnd(replies);
    if interrupt.Some? && interrupt.value <= k then
      SyncRun(Ok(startResponse), interrupt.value, SpinnerLabels(replies[..interrupt.value]), true, None)
    else
      StopRun(startResponse, k + 1, SpinnerLabels(replies[..k]), replies[k])
  }

  /** A wait that reaches a status that is not running returns only when that
      status can be printed, which is when every failed document arrived as an
      object; it then reports that status. */
  lemma StopRunPrintsStatus(startResponse: SyncStartResponse, fetches: nat, labels: seq<string>, reply: StatusReply)
    requires GetStatusQuietly(reply).Ok?
    ensures var run := StopRun(startResponse, fetches, labels, reply);
      (run.result.Ok? <==> forall i :: 0 <= i < |reply.body.value.failedDocuments| ==> reply.body.value.failedDocuments[i].Dict?)
      && (run.result.Err? ==> run.result.error == UnrenderableStatus)
      && (run.final.Some? ==> StatusView(run.final.value).Some?)
  {
    FetchedStatusRenders(reply);
  }

  /** Without Ctrl+C before it, the wait ends at the first reply that ends the
      loop, which is reply number `k`. */
  lemma PollRunStops(startResponse: SyncStartResponse, replies: seq<StatusReply>, interrupt: Option<nat>, k: nat)
    requires Finishes(replies, interrupt)
    requires k == FirstEnd(replies) && (interrupt.None? || interrupt.value > k)
    ensures k < |replies|
    ensures PollRun(startResponse, replies, interrupt)
         == StopRun(startResponse, k + 1, SpinnerLabels(replies[..k]), replies[k])
  {
    assert k < |replies|;
  }

  /** `start_sync` as a function of its inputs. */
  function StartSyncRun(start: StartReply, replies: seq<StatusReply>, interrupt: Option<nat>, waitForCompletion: bool): SyncRun
    requires Waits(start, waitForCompletion) ==> Finishes(replies, interrupt)
  {
    if start.code == 409 then Returned(Ok(SyncStartResponse(false, ConflictMessage)))
    else if IsHttpError(start.code) then Returned(Err(HttpError(start.code)))
    else if start.body.None? then Returned(Err(MalformedBody))
    else if !(start.body.value.success && waitForCompletion) then Returned(Ok(start.body.value))
    else PollRun(start.body.value, replies, interrupt)
  }

  /** `start_sync`. The loop fetches a status, stops at the first one that is not
      running (printing it), and otherwise refreshes the spinner label when the
      runtime is truthy. Ctrl+C before fetch number `interrupt` ends the wait. */
  method StartSync(start: StartReply, replies: seq<StatusReply>, interrupt: Option<nat>, waitForCompletion: bool := false)
    returns (run: SyncRun)
    requires Waits(start, waitForCompletion) ==> Finishes(replies, interrupt)
    ensures run == StartSyncRun(start, replies, interrupt, waitForCompletion)
  {
    if start.code == 409 {
      return Returned(Ok(SyncStartResponse(false, ConflictMessage)));
    }
    if IsHttpError(start.code) {
      return Returned(Err(HttpError(start.code)));
    }
    if start.body.None? {
      return Returned(Err(MalformedBody));
    }
    var startResponse := start.body.value;
    if startResponse.success && waitForCompletion {
      run := Poll(startResponse, replies, interrupt);
    } else {
      run := Returned(Ok(startResponse));
    }
  }

  /** Labels grow by what the next polled reply adds. */
  lemma SpinnerLabelsSnoc(replies: seq<StatusReply>, j: nat)
    requires j < |replies|
    ensures SpinnerLabels(replies[..j + 1]) == SpinnerLabels(replies[..j]) + Relabel(replies[j])
  {
    assert replies[..j + 1][..j] == replies[..j];
  }

  /** A reply that ends the loop, reached without Ctrl+C, is the first such reply. */
  lemma StopIsFirstEnd(replies: seq<StatusReply>, interrupt: Option<nat>, j: nat)
    requires j < |replies| && j <= FirstEnd(replies) && EndsPolling(replies[j])
    requires interrupt.None? || j < interrupt.value
    ensures FirstEnd(replies) == j
    ensures !(interrupt.Some? && interrupt.value <= FirstEnd(replies))
  {
    if j < FirstEnd(replies) {
      FirstEndIsFirst(replies, j);
    }
  }

  /** Ctrl+C before fetch number j, with j not past the first stopping reply,
      ends the wait there. */
  lemma PollRunInterrupted(startResponse: SyncStartResponse, replies: seq<StatusReply>, j: nat)
    requires Finishes(replies, Some(j)) && j <= FirstEnd(replies)
    ensures PollRun(startResponse, replies, Some(j)) == SyncRun(Ok(startResponse), j, SpinnerLabels(replies[..j]), true, None)
  {
  }

  /** The end of the wait at the reply that ends it: `status` has been fetched;
      it is raised, or printed and the start response returned. */
  method Finish(startResponse: SyncStartResponse, fetches: nat, labels: seq<string>, reply: StatusReply,
                status: Result<SyncStatusResponse, ClientError>)
    returns (run: SyncRun)
    requires status == GetStatusQuietly(reply) && EndsPolling(reply)
    ensures run == StopRun(startResponse, fetches, labels, reply)
  {
    if status.Err? {
      return SyncRun(Err(status.error), fetches, labels, false, None);
    }
    var text := StatusText(status.value);
    if text.None? {
      return SyncRun(Err(UnrenderableStatus), fetches, labels, false, None);
    }
    return SyncRun(Ok(startResponse), fetches, labels, false, Some(status.value));
  }

  /** The `while True` loop of `start_sync`. */
  method Poll(startResponse: SyncStartResponse, replies: seq<StatusReply>, interrupt: Option<nat>) returns (run: SyncRun)
    requires Finishes(replies, interrupt)
    ensures run == PollRun(startResponse, replies, interrupt)
  {
    var labels := ["Syncing"];
    var fetches := 0;
    while true
      invariant fetches <= FirstEnd(replies)
      invariant interrupt.None? || fetches <= interrupt.value
      invariant labels == SpinnerLabels(replies[..fetches])
      decreases |replies| - fetches
    {
      if interrupt == Some(fetches) {
        PollRunInterrupted(startResponse, replies, fetches);
        return SyncRun(Ok(startResponse), fetches, labels, true, None);
      }
      var reply := replies[fetches];
      var status := GetStatusQuietly(reply);
      if status.Err? || !status.value.isSyncRunning {
        StopIsFirstEnd(replies, interrupt, fetches);
        PollRunStops(startResponse, replies, interrupt, fetches);
        run := Finish(startResponse, fetches + 1, labels, reply, status);
        return;
      }
      SpinnerLabelsSnoc(replies, fetches);
      if Truthy(status.value.syncRuntimeSeconds) {
        var timeStr := RuntimeLabel(status.value.syncRuntimeSeconds.value);
        labels := labels + [timeStr];
      }
      fetches := fetches + 1;
    }
  }

  /** `sync`: the backward-compatible wrapper, which waits unless told otherwise. */
  method Sync(start: StartReply, replies: seq<StatusReply>, interrupt: Option<nat>, wait: bool := true)
    returns (run: SyncRun)
    requires Waits(start, wait) ==> Finishes(replies, interrupt)
    ensures run == StartSyncRun(start, replies, interrupt, wait)
  {
    run := StartSync(start, replies, interrupt, waitForCompletion := wait);
  }

  // ---------------------------------------------------------------------
  // Properties of start_sync

  /** A 409 never raises and never polls: it gives a failed start with the
      conflict message, whatever else is going on. */
  lemma ConflictShortCircuits(start: StartReply, replies: seq<StatusReply>, interrupt: Option<nat>, waitForCompletion: bool)
    requires start.code == 409
    ensures var run := StartSyncRun(start, replies, interrupt, waitForCompletion);
      run.result.Ok? && !run.result.value.success && run.result.value.message == ConflictMessage
      && run.fetches == 0 && run.final.None? && !run.interrupted
  {
  }

  /** Without a successful start and a request to wait there is no polling; a
      start that got through is returned unchanged. */
  lemma NoWaitNoPolling(start: StartReply, replies: seq<StatusReply>, interrupt: Option<nat>, waitForCompletion: bool)
    requires !Waits(start, waitForCompletion)
    ensures var run := StartSyncRun(start, replies, interrupt, waitForCompletion);
      run.fetches == 0 && run.labels == [] && run.final.None? && !run.interrupted
      && (start.code != 409 && !IsHttpError(start.code) && start.body.Some? ==> run.result == Ok(start.body.value))
  {
  }

  /** A successful start with a request to wait runs the poll loop. */
  lemma WaitPolls(start: StartReply, replies: seq<StatusReply>, interrupt: Option<nat>, waitForCompletion: bool)
    requires Waits(start, waitForCompletion) && Finishes(replies, interrupt)
    ensures StartSyncRun(start, replies, interrupt, waitForCompletion) == PollRun(start.body.value, replies, interrupt)
  {
  }

  /** Without Ctrl+C before it, the loop makes exactly k + 1 fetches, k being the
      index of the first reply that ends it, and that reply's status is the one
      reported. */
  lemma PollsUntilFirstStop(startResponse: SyncStartResponse, replies: seq<StatusReply>, interrupt: Option<nat>)
    requires Finishes(replies, interrupt)
    requires interrupt.None? || interrupt.value > FirstEnd(replies)
    ensures FirstEnd(replies) < |replies|
    ensures var run := PollRun(startResponse, replies, interrupt);
      var k := FirstEnd(replies);
      run.fetches == k + 1 && !run.interrupted
      && (run.final.Some? ==> GetStatusQuietly(replies[k]) == Ok(run.final.value) && !run.final.value.isSyncRunning)
      && (GetStatusQuietly(replies[k]).Err? ==> run.result == Err(GetStatusQuietly(replies[k]).error))
  {
    PollRunStops(startResponse, replies, interrupt, FirstEnd(replies));
  }

  /** A wait that completes without error returns the start response, not the
      final status, and the final status is not running. */
  lemma WaitReturnsStartResponse(start: StartReply, replies: seq<StatusReply>, interrupt: Option<nat>, waitForCompletion: bool)
    requires Waits(start, waitForCompletion) && Finishes(replies, interrupt)
    ensures var run := StartSyncRun(start, replies, interrupt, waitForCompletion);
      run.result.Ok? ==> run.result.value == start.body.value && (run.final.Some? || run.interrupted)
    ensures var run := StartSyncRun(start, replies, interrupt, waitForCompletion);
      run.final.Some? ==> !run.final.value.isSyncRunning
  {
    if interrupt.None? || interrupt.value > FirstEnd(replies) {
      PollsUntilFirstStop(start.body.value, replies, interrupt);
    }
  }

  /** Ctrl+C before fetch number j stops the wait with exactly j fetches, no final
      status, and the start response as the result. */
  lemma InterruptStopsWaiting(start: StartReply, replies: seq<StatusReply>, j: nat, waitForCompletion: bool)
    requires Waits(start, waitForCompletion) && j <= FirstEnd(replies) && j <= |replies|
    ensures Finishes(replies, Some(j))
    ensures var run := StartSyncRun(start, replies, Some(j), waitForCompletion);
      run.interrupted && run.fetches == j && run.final.None? && run.result == Ok(start.body.value)
  {
  }

  /** Whatever the inputs, a run never fetches more statuses than there are
      replies, nor past the first reply that ends the loop. */
  lemma FetchesBounded(start: StartReply, replies: seq<StatusReply>, interrupt: Option<nat>, waitForCompletion: bool)
    requires Waits(start, waitForCompletion) ==> Finishes(replies, interrupt)
    ensures var run := StartSyncRun(start, replies, interrupt, waitForCompletion);
      run.fetches <= |replies| && run.fetches <= FirstEnd(replies) + 1
  {
    if Waits(start, waitForCompletion) {
      var k := FirstEnd(replies);
      WaitPolls(start, replies, interrupt, waitForCompletion);
      if interrupt.Some? && interrupt.value <= k {
        PollRunInterrupted(start.body.value, replies, interrupt.value);
      } else {
        PollRunStops(start.body.value, replies, interrupt, k);
      }
    }
  }

  /** Two running statuses with runtimes `r1` and `r2`, then an idle one. */
  function ExampleReplies(r1: real, r2: real): seq<StatusReply> {
    [StatusReply(200, Some(RawStatus(true, Some(r1), [], 0, 0, []))),
     StatusReply(200, Some(RawStatus(true, Some(r2), [], 0, 0, []))),
     StatusReply(200, Some(RawStatus(false, None, ["Docs"], 5, 0, [])))]
  }

  /** On two running statuses and then an idle one the loop makes three fetches,
      reports the third status, and relabels the spinner once for each running
      status that carries a runtime. */
  lemma ThreePollsExample(r1: real, r2: real)
    requires r1 > 0.0 && r2 > 0.0
    ensures FirstEnd(ExampleReplies(r1, r2)) == 2
    ensures var start := StartReply(200, Some(SyncStartResponse(true, "Sync started")));
      var run := StartSyncRun(start, ExampleReplies(r1, r2), None, true);
      run.result == Ok(SyncStartResponse(true, "Sync started"))
      && run.fetches == 3
      && run.labels == ["Syncing", RuntimeLabel(r1), RuntimeLabel(r2)]
      && run.final == Some(SyncStatusResponse(false, None, ["Docs"], 5, 0, []))
  {
    var replies := ExampleReplies(r1, r2);
    assert !EndsPolling(replies[0]) && !EndsPolling(replies[1]) && EndsPolling(replies[2]);
    assert FirstEnd(replies[2..]) == 0;
    assert FirstEnd(replies[1..]) == 1 by { assert replies[1..][1..] == replies[2..]; }
    assert replies[..2][..1] == [replies[0]];
    assert SpinnerLabels([replies[0]]) == ["Syncing", RuntimeLabel(r1)];
    assert SpinnerLabels(replies[..2]) == ["Syncing", RuntimeLabel(r1), RuntimeLabel(r2)];
  }

  // ---------------------------------------------------------------------
  // search

  /** The reply to `GET /search/<question>`: `body` is absent when the JSON is not
      an object, and `results` is absent when the object has no "results" key. */
  datatype SearchReply = SearchReply(code: int, body: Option<SearchBody>)
  datatype SearchBody = SearchBody(results: Option<seq<map<string, string>>>)

  /** The keys `r["..."]` reads from each result object. */
  predicate HasResultKeys(entry: map<string, string>) {
    "filename" in entry && "snippet" in entry && "sharepoint_link" in entry
  }

  /** One `SearchResult(...)` of the comprehension. */
  function ToResult(entry: map<string, string>): SearchResult
    requires HasResultKeys(entry)
  {
    SearchResult(entry["filename"], entry["snippet"], entry["sharepoint_link"])
  }

  /** The list comprehension over `results.get("results", [])`. */
  function ToResults(entries: seq<map<string, string>>): (results: seq<SearchResult>)
    requires forall i :: 0 <= i < |entries| ==> HasResultKeys(entries[i])
    ensures |results| == |entries|
    ensures forall i :: 0 <= i < |entries| ==> results[i] == ToResult(entries[i])
  {
    if entries == [] then [] else [ToResult(entries[0])] + ToResults(entries[1..])
  }

  /** `search`: one result per element of "results", in order; none when the key
      is absent. `elapsed` stands for the measured `time.time() - t`. */
  function Search(question: string, reply: SearchReply, elapsed: real): (r: Result<SearchResponse, ClientError>)
    ensures IsHttpError(reply.code) ==> r == Err(HttpError(reply.code))
    ensures r.Ok? <==>
      !IsHttpError(reply.code) && reply.body.Some?
      && (reply.body.value.results.Some? ==>
            forall i :: 0 <= i < |reply.body.value.results.value| ==> HasResultKeys(reply.body.value.results.value[i]))
    ensures r.Ok? ==> r.value.query == question && r.value.timeTaken == elapsed
    ensures r.Ok? && reply.body.value.results.None? ==> r.value.results == []
    ensures r.Ok? && reply.body.value.results.Some? ==>
      var entries := reply.body.value.results.value;
      |r.value.results| == |entries|
      && forall i :: 0 <= i < |entries| ==>
           r.value.results[i].filename == entries[i]["filename"]
           && r.value.results[i].snippet == entries[i]["snippet"]
           && r.value.results[i].sharepointLink == entries[i]["sharepoint_link"]
  {
    if IsHttpError(reply.code) then Err(HttpError(reply.code))
    else if reply.body.None? then Err(MalformedBody)
    else
      var entries := if reply.body.value.results.Some? then reply.body.value.results.value else [];
      if forall i :: 0 <= i < |entries| ==> HasResultKeys(entries[i])
      then Ok(SearchResponse(question, ToResults(entries), elapsed))
      else Err(MalformedBody)
  }
}
