/** The video-processing job as a transition system: what one run of
    `process_and_monitor` does to the upload record and the subtitle table,
    given what the outside world answers.

    Everything the run asks of the outside world is an input here: whether
    staging and URL minting went through, the worker's reply to the
    submission, the object store's contents, and for every iteration of
    the polling loop the elapsed time read at its top and the outcome of
    the status request (a transport error, or a status document together
    with the persistence faults its handling would meet), and whether the
    database refuses each status save, which makes `_update_status` raise
    and sends control to whichever handler encloses it. The status
    codes and the commentator codes live in the common-code table, a partial
    map from code to code group. */
module Workflow {
  import opened Wrappers
  import opened Text
  import opened Storage
  import opened CommonCodes

  // ---------------------------------------------------------------------
  // Constants
  // ---------------------------------------------------------------------

  /** Upload status codes written by the run. */
  const Processing: int := 21
  const Complete: int := 22
  const Failed: int := 23

  /** Seconds slept between polls, and the loop's deadline in seconds,
      measured from loop entry. */
  const PollInterval: int := 5
  const MaxWaitTime: int := 1200

  /** The largest number of status requests one loop can make when the
      clock advances by at least `PollInterval` per iteration. */
  const MaxPolls: nat := 241

  // ---------------------------------------------------------------------
  // Analyst codes and the common-code table
  // ---------------------------------------------------------------------

  /** Internal commentator code to the worker's analyst number. */
  const AnalystMapping: map<int, int> := map[17 := 3, 18 := 2, 19 := 1]

  /** `ANALYST_MAPPING.get(code, 1)`: the worker analyst number for an
      internal code. */
  function WorkerAnalyst(code: int): (w: int)
    ensures 1 <= w <= 3
    ensures code in AnalystMapping ==> w == AnalystMapping[code]
    ensures code !in AnalystMapping ==> w == 1
  {
    if code in AnalystMapping then AnalystMapping[code] else 1
  }

  /** The table: 17, 18 and 19 select worker analysts 3, 2 and 1, every
      other code (99, say) selects analyst 1, and no two codes of the table
      select the same analyst. */
  lemma AnalystTable()
    ensures WorkerAnalyst(17) == 3 && WorkerAnalyst(18) == 2 && WorkerAnalyst(19) == 1
    ensures WorkerAnalyst(99) == 1
    ensures forall c :: c != 17 && c != 18 && c != 19 ==> WorkerAnalyst(c) == 1
    ensures forall a, b :: a in AnalystMapping && b in AnalystMapping && a != b ==> AnalystMapping[a] != AnalystMapping[b]
  {
  }

  /** The three status rows the run writes are present. */
  predicate StatusRowsExist(codes: CodeTable) {
    forall c :: c in {Processing, Complete, Failed} ==> LookupCode(codes, c, StatusGroup).Some?
  }

  // ---------------------------------------------------------------------
  // Persistent state
  // ---------------------------------------------------------------------

  /** A subtitle row is identified by its upload and its commentator code
      (which may be absent when the code has no row). */
  datatype SubtitleKey = SubtitleKey(upload: int, commentator: Option<int>)

  /** What the run can change: the upload's status code, the storage key of
      its video, and the subtitle table. */
  datatype Db = Db(status: Option<int>, filePath: string, subtitles: map<SubtitleKey, string>)

  /** `_update_status` when its save goes through: the upload takes the
      code only when the code has a STATUS row; otherwise nothing changes.
      Nothing but the status moves. */
  function WriteStatus(codes: CodeTable, db: Db, code: int): (d: Db)
    ensures d.filePath == db.filePath && d.subtitles == db.subtitles
    ensures LookupCode(codes, code, StatusGroup).Some? ==> d.status == Some(code)
    ensures LookupCode(codes, code, StatusGroup).None? ==> d == db
  {
    if LookupCode(codes, code, StatusGroup).Some? then db.(status := Some(code)) else db
  }

  /** Whether `_update_status` raises, given whether the database refuses
      the save: only a code with a STATUS row leads to a save at all. */
  predicate Raises(codes: CodeTable, code: int, saveFails: bool) {
    saveFails && LookupCode(codes, code, StatusGroup).Some?
  }

  /** `_update_status` with the database's answer: the state after it, or
      None when it raises, in which case the stored state is the one before
      it (the save is what failed). */
  function TryWrite(codes: CodeTable, db: Db, code: int, saveFails: bool): (r: Option<Db>)
    ensures r.None? <==> Raises(codes, code, saveFails)
    ensures r.Some? ==> r.value == WriteStatus(codes, db, code)
  {
    if Raises(codes, code, saveFails) then None else Some(WriteStatus(codes, db, code))
  }

  // ---------------------------------------------------------------------
  // What the outside world answers
  // ---------------------------------------------------------------------

  /** The worker's answer to the submission: a transport error after the
      transport's own retries, or an HTTP status and the `job_id` field of
      the body when it has one. */
  datatype SubmitReply = TransportError | Reply(httpStatus: int, jobId: Option<string>)

  /** Everything outside the polling loop: the upload's file name (None
      when it cannot be read), the clock at staging and at minting, whether
      the upload and the presigning went through, the worker's reply, and
      whether the database refuses the save of the PROCESSING write and of
      the FAILED write made by the run's exception handler. */
  datatype Setup = Setup(fileName: Option<string>, stageTime: nat, stageOk: bool,
                         mintTime: nat, mintOk: bool, reply: SubmitReply,
                         processingWriteFails: bool, handlerWriteFails: bool)

  /** An object in the store: bytes that are not UTF-8, or text and
      whether it parses as JSON. */
  datatype ObjectBody = Undecodable | Body(content: string, isJson: bool)

  /** The status document's `output` field: an object with an optional
      `script` entry (a missing field reads as an empty object), or a value
      that is not an object (null, a list, a string). */
  datatype Output = Object(script: Option<string>) | NotAnObject

  /** The persistence faults met while handling a terminal status: saving
      the rebound video path, fetching the script, upserting the subtitle,
      saving the COMPLETE status, and saving the FAILED status (at most one
      FAILED write is made per handled status). */
  datatype Faults = Faults(rebindFails: bool, fetchFails: bool, upsertFails: bool,
                           completeWriteFails: bool, failedWriteFails: bool)

  const NoFaults: Faults := Faults(false, false, false, false, false)

  /** One status request: a transport or decoding error, or a status
      document (its `status` field, None when absent) together with the
      faults met if it is handled. */
  datatype Poll = PollError | Snapshot(status: Option<string>, output: Output, faults: Faults)

  /** One loop iteration: the elapsed seconds read at its top, the poll it
      would make, and whether the database refuses the save of the FAILED
      write made when the iteration is past the deadline. */
  datatype Tick = Tick(elapsed: int, poll: Poll, timeoutWriteFails: bool)

  /** What stays fixed for one run: the common-code table, the upload's id,
      the internal analyst code and the object store. */
  datatype Context = Context(codes: CodeTable, upload: int, analyst: int, objects: map<string, ObjectBody>)

  // ---------------------------------------------------------------------
  // Before the loop: stage, mint, submit
  // ---------------------------------------------------------------------

  datatype SubmitRequest = SubmitRequest(videoUrl: PresignedUrl, uploadUrl: PresignedUrl,
                                         scriptUrl: PresignedUrl, analystSelect: int)

  /** Why a run has no job: the PROCESSING write raised before anything was
      staged, or staging, minting or submission failed. */
  datatype Failure = NotStarted | StagingFailed | MintingFailed | TransportFailed | HttpError(status: int) | MissingJobId

  /** A submitted job: its id, the key the result video will have, and the
      request that was sent. */
  datatype Job = Job(jobId: string, outputKey: string, request: SubmitRequest)

  /** `raise_for_status` raises for 4xx and 5xx answers. */
  predicate IsHttpError(status: int) {
    400 <= status < 600
  }

  /** `submit_job` after the POST: the job id, or why there is none. */
  function SubmitJob(reply: SubmitReply): (r: Result<string, Failure>)
    ensures r.Ok? <==> reply.Reply? && !IsHttpError(reply.httpStatus) && reply.jobId.Some?
    ensures r.Ok? ==> r.value == reply.jobId.value
    ensures reply.Reply? && IsHttpError(reply.httpStatus) ==> r == Err(HttpError(reply.httpStatus))
  {
    match reply
    case TransportError => Err(TransportFailed)
    case Reply(status, id) =>
      if IsHttpError(status) then Err(HttpError(status))
      else if id.None? then Err(MissingJobId)
      else Ok(id.value)
  }

  /** The steps of `process_and_monitor` between the PROCESSING write and
      the loop. A submitted job asks for the translated analyst, hands the
      worker a read URL for the staged input and write URLs for two keys
      sharing the minting timestamp, and will be rebound to the result key. */
  function Prepare(setup: Setup, analyst: int): (r: Result<Job, Failure>)
    ensures r.Ok? <==> setup.stageOk && setup.mintOk && SubmitJob(setup.reply).Ok?
    ensures r.Err? ==> r.error != NotStarted
    ensures r.Ok? ==> r.value.request.analystSelect == WorkerAnalyst(analyst)
    ensures r.Ok? ==> r.value.request.videoUrl.key == InputKey(setup.fileName, setup.stageTime)
    ensures r.Ok? ==> r.value.outputKey == r.value.request.uploadUrl.key == ResultKey(setup.mintTime)
    ensures r.Ok? ==> StampOf(ScriptPrefix, ScriptSuffix, r.value.request.scriptUrl.key) == Some(setup.mintTime)
  {
    var inputKey := InputKey(setup.fileName, setup.stageTime);
    if !setup.stageOk then Err(StagingFailed)
    else if !setup.mintOk then Err(MintingFailed)
    else
      var urls := MintAccessUrls(inputKey, setup.mintTime);
      var request := SubmitRequest(urls.download, urls.upload, urls.scriptUpload, WorkerAnalyst(analyst));
      match SubmitJob(setup.reply)
      case Ok(id) => Ok(Job(id, urls.outputKey, request))
      case Err(e) => Err(e)
  }

  // ---------------------------------------------------------------------
  // Reconciliation
  // ---------------------------------------------------------------------

  /** The key the subtitle of this run is stored under. */
  function SubtitleKeyOf(ctx: Context): SubtitleKey {
    SubtitleKey(ctx.upload, LookupCode(ctx.codes, ctx.analyst, CommentatorGroup))
  }

  /** Whether the script a URL names can be stored: the URL is present and
      non-empty, `urlparse` does not raise on it, the fetch succeeds, the
      object decodes and is JSON, and the upsert goes through. */
  predicate ScriptLoads(ctx: Context, script: Option<string>, faults: Faults) {
    && script.Some? && script.value != ""
    && UrlSplits(script.value)
    && !faults.fetchFails
    && ScriptKeyOf(script.value) in ctx.objects
    && ctx.objects[ScriptKeyOf(script.value)].Body?
    && ctx.objects[ScriptKeyOf(script.value)].isJson
    && !faults.upsertFails
  }

  /** The script sub-step: every failure in it is swallowed and leaves the
      table as it was; on success the row for (upload, commentator) holds
      the script's text, replacing any earlier one. */
  function StoreScript(ctx: Context, db: Db, script: Option<string>, faults: Faults): (d: Db)
    ensures d.status == db.status && d.filePath == db.filePath
    ensures !ScriptLoads(ctx, script, faults) ==> d == db
    ensures ScriptLoads(ctx, script, faults) ==>
              d.subtitles == db.subtitles[SubtitleKeyOf(ctx) := ctx.objects[ScriptKeyOf(script.value)].content]
  {
    if ScriptLoads(ctx, script, faults)
    then db.(subtitles := db.subtitles[SubtitleKeyOf(ctx) := ctx.objects[ScriptKeyOf(script.value)].content])
    else db
  }

  /** The state after a reconciliation and the terminal code it wrote, or
      None when its FAILED write raised (the loop's handler then catches
      the error and polls again). */
  datatype Reconciled = Reconciled(db: Db, code: Option<int>)

  /** A reconciliation that reaches its COMPLETE write and whose save goes
      through: the rebinding is saved, `output` is an object, and the
      COMPLETE write does not raise. */
  predicate Completes(ctx: Context, output: Output, faults: Faults) {
    !faults.rebindFails && output.Object? && !Raises(ctx.codes, Complete, faults.completeWriteFails)
  }

  /** The FAILED write of the handler at the end of the reconciliation. */
  function FailReconcile(ctx: Context, db: Db, faults: Faults): Reconciled {
    match TryWrite(ctx.codes, db, Failed, faults.failedWriteFails)
    case Some(d) => Reconciled(d, Some(Failed))
    case None => Reconciled(db, None)
  }

  /** The COMPLETED/SUCCESS branch of the loop. It writes COMPLETE exactly
      when the rebinding is saved, `output` is an object and the COMPLETE
      save goes through, whatever happens to the script; otherwise it
      writes FAILED, unless that save raises too. The video path changes
      only to the result key, and the subtitle table only at this run's
      key. */
  function Reconcile(ctx: Context, outputKey: string, db: Db, output: Output, faults: Faults): (r: Reconciled)
    ensures r.code == Some(Complete) <==> Completes(ctx, output, faults)
    ensures r.code == Some(Failed) <==> !Completes(ctx, output, faults) && !Raises(ctx.codes, Failed, faults.failedWriteFails)
    ensures r.code.None? <==> !Completes(ctx, output, faults) && Raises(ctx.codes, Failed, faults.failedWriteFails)
    ensures r.db.filePath == (if faults.rebindFails then db.filePath else outputKey)
    ensures r.db.subtitles == db.subtitles || (output.Object? && !faults.rebindFails && ScriptLoads(ctx, output.script, faults))
    ensures output.Object? && !faults.rebindFails && ScriptLoads(ctx, output.script, faults) ==>
              r.db.subtitles == db.subtitles[SubtitleKeyOf(ctx) := ctx.objects[ScriptKeyOf(output.script.value)].content]
    ensures r.code.Some? ==> r.db == WriteStatus(ctx.codes, r.db, r.code.value)
    ensures r.code.None? ==> r.db.status == db.status
  {
    if faults.rebindFails then FailReconcile(ctx, db, faults)
    else
      var rebound := db.(filePath := outputKey);
      match output
      case NotAnObject => FailReconcile(ctx, rebound, faults)
      case Object(script) =>
        var stored := StoreScript(ctx, rebound, script, faults);
        match TryWrite(ctx.codes, stored, Complete, faults.completeWriteFails)
        case Some(d) => Reconciled(d, Some(Complete))
        case None => FailReconcile(ctx, stored, faults)
  }

  // ---------------------------------------------------------------------
  // The polling loop
  // ---------------------------------------------------------------------

  /** How the loop reads a status string, after upper-casing it. */
  datatype Verdict = Succeeded | RemoteFailed | Pending

  function Classify(status: Option<string>): Verdict {
    var s := Upper(status.GetOr(""));
    if s == "COMPLETED" || s == "SUCCESS" then Succeeded
    else if s == "FAILED" then RemoteFailed
    else Pending
  }

  /** The comparison ignores ASCII case: a status and its upper-cased form
      are read alike. */
  lemma ClassifyIgnoresCase(s: string)
    ensures Classify(Some(s)) == Classify(Some(Upper(s)))
  {
    UpperIdempotent(s);
  }

  /** The worker may report its status in lower case. */
  lemma LowerCaseCompletedSucceeds()
    ensures Classify(Some("completed")) == Succeeded
  {
    var u := Upper("completed");
    assert |u| == 9;
    assert u[0] == 'C' && u[1] == 'O' && u[2] == 'M' && u[3] == 'P' && u[4] == 'L';
    assert u[5] == 'E' && u[6] == 'T' && u[7] == 'E' && u[8] == 'D';
    assert u == "COMPLETED";
  }

  /** An iteration past the deadline; the check comes before any poll. */
  predicate PastDeadline(t: Tick) {
    t.elapsed > MaxWaitTime
  }

  /** An iteration that does nothing but poll: within the deadline, and its
      poll failed or reported a non-terminal status. */
  predicate Continues(t: Tick) {
    !PastDeadline(t) && (t.poll.PollError? || Classify(t.poll.status) == Pending)
  }

  /** The clock eventually passes the deadline: the last iteration the
      environment describes is past it, so the loop ends within the ticks. */
  predicate Ends(ticks: seq<Tick>) {
    |ticks| > 0 && PastDeadline(ticks[|ticks| - 1])
  }

  /** The clock starts at zero or later and every iteration sleeps at least
      the poll interval. */
  predicate Advancing(ticks: seq<Tick>) {
    && (|ticks| > 0 ==> ticks[0].elapsed >= 0)
    && forall j :: 0 <= j < |ticks| - 1 ==> ticks[j + 1].elapsed >= ticks[j].elapsed + PollInterval
  }

  /** How one iteration within the deadline ends: it leaves the loop having
      written `code`, or it goes round again (after a failed poll, a
      non-terminal status, or a FAILED write that raised and was caught by
      the loop's own handler). */
  datatype Step = Exit(db: Db, code: int) | Again(db: Db)

  /** The body of the `try` inside `_monitor_loop`, together with its
      handler. */
  function Iteration(ctx: Context, outputKey: string, db: Db, poll: Poll): (s: Step)
    ensures s.Exit? ==> (s.code == Complete || s.code == Failed) && s.db == WriteStatus(ctx.codes, s.db, s.code)
    ensures s.Exit? && s.code == Complete ==> s.db.filePath == outputKey
    ensures s.Again? ==> s.db.status == db.status
    ensures poll.PollError? || Classify(poll.status) == Pending ==> s == Again(db)
    ensures poll.Snapshot? && Classify(poll.status) == RemoteFailed ==>
              s == if Raises(ctx.codes, Failed, poll.faults.failedWriteFails) then Again(db)
                   else Exit(WriteStatus(ctx.codes, db, Failed), Failed)
    ensures poll.Snapshot? && Classify(poll.status) == Succeeded ==>
              var r := Reconcile(ctx, outputKey, db, poll.output, poll.faults);
              s == if r.code.Some? then Exit(r.db, r.code.value) else Again(r.db)
  {
    match poll
    case PollError => Again(db)
    case Snapshot(status, output, faults) =>
      match Classify(status)
      case Pending => Again(db)
      case RemoteFailed =>
        (match TryWrite(ctx.codes, db, Failed, faults.failedWriteFails)
         case Some(d) => Exit(d, Failed)
         case None => Again(db))
      case Succeeded =>
        var r := Reconcile(ctx, outputKey, db, output, faults);
        (match r.code
         case Some(c) => Exit(r.db, c)
         case None => Again(r.db))
  }

  /** The state at loop exit, the status codes written (in order), the
      number of status requests made, and whether the loop was left by the
      exception of a raising timeout write. */
  datatype Loop = Loop(db: Db, writes: seq<int>, polls: nat, escaped: bool)

  /** The deadline branch: write FAILED and leave the loop; a raising save
      leaves it with the exception. */
  function TimeoutExit(codes: CodeTable, db: Db, t: Tick): Loop {
    match TryWrite(codes, db, Failed, t.timeoutWriteFails)
    case Some(d) => Loop(d, [Failed], 0, false)
    case None => Loop(db, [], 0, true)
  }

  /** `_monitor_loop` from iteration `i` on. */
  function MonitorFrom(ctx: Context, outputKey: string, db: Db, ticks: seq<Tick>, i: nat): Loop
    requires Ends(ticks) && i < |ticks|
    decreases |ticks| - i
  {
    var t := ticks[i];
    if PastDeadline(t) then TimeoutExit(ctx.codes, db, t)
    else
      match Iteration(ctx, outputKey, db, t.poll)
      case Exit(d, code) => Loop(d, [code], 1, false)
      case Again(d) =>
        var rest := MonitorFrom(ctx, outputKey, d, ticks, i + 1);
        rest.(polls := rest.polls + 1)
  }

  /** What the loop may do besides writing a status: the video path ends
      where it was or at the result key, and the subtitle table changes at
      most at this run's (upload, commentator) key. */
  predicate Confined(ctx: Context, outputKey: string, db: Db, d: Db) {
    && (d.filePath == db.filePath || d.filePath == outputKey)
    && d.subtitles - {SubtitleKeyOf(ctx)} == db.subtitles - {SubtitleKeyOf(ctx)}
  }

  /** What every loop exit satisfies: a normal exit has written exactly one
      status, COMPLETE or FAILED, and when the status rows exist the upload
      ends in it; an exit by exception has written nothing and left the
      status as it was; a COMPLETE exit has its video rebound to the result
      key; and the loop stays confined. */
  predicate ProperExit(ctx: Context, outputKey: string, db: Db, l: Loop) {
    && (l.escaped ==> l.writes == [] && l.db.status == db.status)
    && (!l.escaped ==> l.writes == [Complete] || l.writes == [Failed])
    && (!l.escaped && StatusRowsExist(ctx.codes) ==> l.db.status == Some(l.writes[0]))
    && (l.writes == [Complete] ==> l.db.filePath == outputKey)
    && Confined(ctx, outputKey, db, l.db)
  }

  /** Updating a map at `k` leaves it unchanged away from `k`. */
  lemma UpdateAwayFromKey<K, V>(m: map<K, V>, k: K, v: V)
    ensures m[k := v] - {k} == m - {k}
  {
  }

  /** Every iteration stays confined, whether it reconciles, fails, or
      goes round again after a raising FAILED write. */
  lemma IterationIsConfined(ctx: Context, outputKey: string, db: Db, poll: Poll)
    ensures Confined(ctx, outputKey, db, Iteration(ctx, outputKey, db, poll).db)
  {
    if poll.Snapshot? && Classify(poll.status) == Succeeded {
      var r := Reconcile(ctx, outputKey, db, poll.output, poll.faults);
      if r.db.subtitles != db.subtitles {
        UpdateAwayFromKey(db.subtitles, SubtitleKeyOf(ctx), ctx.objects[ScriptKeyOf(poll.output.script.value)].content);
      }
    }
  }

  /** Whatever the answers, the loop ends in a proper exit. */
  lemma {:induction false} MonitorOutcome(ctx: Context, outputKey: string, db: Db, ticks: seq<Tick>, i: nat)
    requires Ends(ticks) && i < |ticks|
    ensures ProperExit(ctx, outputKey, db, MonitorFrom(ctx, outputKey, db, ticks, i))
    decreases |ticks| - i
  {
    var t := ticks[i];
    if PastDeadline(t) {
      if StatusRowsExist(ctx.codes) {
        assert LookupCode(ctx.codes, Failed, StatusGroup).Some?;
      }
    } else {
      IterationIsConfined(ctx, outputKey, db, t.poll);
      match Iteration(ctx, outputKey, db, t.poll)
      case Exit(d, code) =>
        if StatusRowsExist(ctx.codes) {
          assert LookupCode(ctx.codes, code, StatusGroup).Some?;
        }
      case Again(d) =>
        MonitorOutcome(ctx, outputKey, d, ticks, i + 1);
    }
  }

  /** A poll that fails, or reports a status other than a terminal one,
      within the deadline is retried: the loop goes on exactly as from the
      next iteration, one request later. */
  lemma RetriedWithinDeadline(ctx: Context, outputKey: string, db: Db, ticks: seq<Tick>, i: nat)
    requires Ends(ticks) && i < |ticks|
    requires Continues(ticks[i])
    ensures i + 1 < |ticks|
    ensures var rest := MonitorFrom(ctx, outputKey, db, ticks, i + 1);
            MonitorFrom(ctx, outputKey, db, ticks, i) == rest.(polls := rest.polls + 1)
  {
  }

  /** A FAILED write inside the loop's `try` that raises is caught by the
      loop's handler: after a remote failure the loop polls again from the
      same state, and after a reconciliation that did not complete it polls
      again from the reconciled state (video rebound, script stored), so
      the next terminal status is handled once more. */
  lemma RaisingFailedWriteRepolls(ctx: Context, outputKey: string, db: Db, ticks: seq<Tick>, i: nat)
    requires Ends(ticks) && i < |ticks| && !PastDeadline(ticks[i])
    requires ticks[i].poll.Snapshot? && Raises(ctx.codes, Failed, ticks[i].poll.faults.failedWriteFails)
    ensures i + 1 < |ticks|
    ensures Classify(ticks[i].poll.status) == RemoteFailed ==>
              var rest := MonitorFrom(ctx, outputKey, db, ticks, i + 1);
              MonitorFrom(ctx, outputKey, db, ticks, i) == rest.(polls := rest.polls + 1)
    ensures Classify(ticks[i].poll.status) == Succeeded && !Completes(ctx, ticks[i].poll.output, ticks[i].poll.faults) ==>
              var r := Reconcile(ctx, outputKey, db, ticks[i].poll.output, ticks[i].poll.faults);
              var rest := MonitorFrom(ctx, outputKey, r.db, ticks, i + 1);
              MonitorFrom(ctx, outputKey, db, ticks, i) == rest.(polls := rest.polls + 1)
  {
  }

  /** A completion whose COMPLETE and FAILED saves both raise is handled
      again at the next poll: when that one goes through, the job completes
      after two requests, having rebound the video twice. */
  lemma ReconciledAgainAfterRaisingWrites(ctx: Context, outputKey: string, db: Db, later: seq<Tick>)
    requires StatusRowsExist(ctx.codes)
    ensures var done := Snapshot(Some("completed"), Object(None), NoFaults);
            var refused := Snapshot(Some("completed"), Object(None), Faults(false, false, false, true, true));
            var ticks := [Tick(0, refused, false), Tick(5, done, false), Tick(MaxWaitTime + 1, PollError, false)] + later;
            Ends(ticks) ==>
            var l := MonitorFrom(ctx, outputKey, db, ticks, 0);
            l.writes == [Complete] && l.polls == 2 && !l.escaped && l.db.filePath == outputKey
  {
    var done := Snapshot(Some("completed"), Object(None), NoFaults);
    var refused := Snapshot(Some("completed"), Object(None), Faults(false, false, false, true, true));
    var ticks := [Tick(0, refused, false), Tick(5, done, false), Tick(MaxWaitTime + 1, PollError, false)] + later;
    if Ends(ticks) {
      LowerCaseCompletedSucceeds();
      assert LookupCode(ctx.codes, Complete, StatusGroup).Some? && LookupCode(ctx.codes, Failed, StatusGroup).Some?;
      var first := Reconcile(ctx, outputKey, db, Object(None), refused.faults);
      assert first.code.None?;
      var second := Reconcile(ctx, outputKey, first.db, Object(None), NoFaults);
      ScriptProblemsNeverFail(ctx, outputKey, first.db, None, NoFaults);
      assert ticks[1] == Tick(5, done, false);
      assert MonitorFrom(ctx, outputKey, first.db, ticks, 1) == Loop(second.db, [Complete], 1, false);
      assert ticks[0] == Tick(0, refused, false);
    }
  }

  /** Timeout: when every iteration before `k` only polls and iteration `k`
      is past the deadline, the loop writes FAILED (or leaves with the
      exception of a raising save), makes one request per earlier
      iteration, and neither rebinds the video nor stores a subtitle. */
  lemma {:induction false} TimeoutFails(ctx: Context, outputKey: string, db: Db, ticks: seq<Tick>, i: nat, k: nat)
    requires Ends(ticks) && i <= k < |ticks|
    requires PastDeadline(ticks[k])
    requires forall j :: i <= j < k ==> Continues(ticks[j])
    ensures !Raises(ctx.codes, Failed, ticks[k].timeoutWriteFails) ==>
              MonitorFrom(ctx, outputKey, db, ticks, i) == Loop(WriteStatus(ctx.codes, db, Failed), [Failed], k - i, false)
    ensures Raises(ctx.codes, Failed, ticks[k].timeoutWriteFails) ==>
              MonitorFrom(ctx, outputKey, db, ticks, i) == Loop(db, [], k - i, true)
    decreases k - i
  {
    if i < k {
      TimeoutFails(ctx, outputKey, db, ticks, i + 1, k);
    }
  }

  /** A remote failure: when every iteration before `k` only polls and
      iteration `k`, within the deadline, reports FAILED and its save goes
      through, the loop writes FAILED and exits after one request per
      iteration up to `k`, leaving the video path and the subtitles as they
      were. */
  lemma {:induction false} RemoteFailureFails(ctx: Context, outputKey: string, db: Db, ticks: seq<Tick>, i: nat, k: nat)
    requires Ends(ticks) && i <= k < |ticks|
    requires !PastDeadline(ticks[k]) && ticks[k].poll.Snapshot? && Classify(ticks[k].poll.status) == RemoteFailed
    requires !Raises(ctx.codes, Failed, ticks[k].poll.faults.failedWriteFails)
    requires forall j :: i <= j < k ==> Continues(ticks[j])
    ensures MonitorFrom(ctx, outputKey, db, ticks, i) == Loop(WriteStatus(ctx.codes, db, Failed), [Failed], k - i + 1, false)
    decreases k - i
  {
    if i < k {
      RemoteFailureFails(ctx, outputKey, db, ticks, i + 1, k);
    }
  }

  /** A remote completion: when every iteration before `k` only polls and
      iteration `k`, within the deadline, reports COMPLETED or SUCCESS and
      its reconciliation writes a code, the loop exits with that code and
      the reconciled state, after one request per iteration up to `k`. */
  lemma {:induction false} RemoteCompletionReconciles(ctx: Context, outputKey: string, db: Db, ticks: seq<Tick>, i: nat, k: nat)
    requires Ends(ticks) && i <= k < |ticks|
    requires !PastDeadline(ticks[k]) && ticks[k].poll.Snapshot? && Classify(ticks[k].poll.status) == Succeeded
    requires Reconcile(ctx, outputKey, db, ticks[k].poll.output, ticks[k].poll.faults).code.Some?
    requires forall j :: i <= j < k ==> Continues(ticks[j])
    ensures var r := Reconcile(ctx, outputKey, db, ticks[k].poll.output, ticks[k].poll.faults);
            MonitorFrom(ctx, outputKey, db, ticks, i) == Loop(r.db, [r.code.value], k - i + 1, false)
    decreases k - i
  {
    if i < k {
      RemoteCompletionReconciles(ctx, outputKey, db, ticks, i + 1, k);
    }
  }

  /** Where an iteration within the deadline goes round again, the loop's
      result is the next iteration's, from the state that iteration left,
      with one request more; an iteration that exits makes one request and
      one past the deadline none. */
  lemma MonitorContinuesOneLater(ctx: Context, outputKey: string, db: Db, ticks: seq<Tick>, i: nat)
    requires Ends(ticks) && i < |ticks|
    ensures PastDeadline(ticks[i]) ==> MonitorFrom(ctx, outputKey, db, ticks, i).polls == 0
    ensures !PastDeadline(ticks[i]) ==>
              var s := Iteration(ctx, outputKey, db, ticks[i].poll);
              && (s.Exit? ==> MonitorFrom(ctx, outputKey, db, ticks, i).polls == 1)
              && (s.Again? ==>
                    && i + 1 < |ticks|
                    && MonitorFrom(ctx, outputKey, db, ticks, i).polls == MonitorFrom(ctx, outputKey, s.db, ticks, i + 1).polls + 1)
  {
  }

  /** The loop makes at most `MaxPolls` status requests: each request
      happens within the deadline, and the clock advances by the poll
      interval between two of them. */
  lemma {:induction false} PollsBounded(ctx: Context, outputKey: string, db: Db, ticks: seq<Tick>, i: nat)
    requires Ends(ticks) && i < |ticks| && Advancing(ticks)
    ensures var l := MonitorFrom(ctx, outputKey, db, ticks, i);
            l.polls * PollInterval <= MaxWaitTime + PollInterval - ticks[i].elapsed || l.polls == 0
    decreases |ticks| - i
  {
    var t := ticks[i];
    MonitorContinuesOneLater(ctx, outputKey, db, ticks, i);
    if !PastDeadline(t) {
      var s := Iteration(ctx, outputKey, db, t.poll);
      if s.Again? {
        PollsBounded(ctx, outputKey, s.db, ticks, i + 1);
      }
    }
  }

  /** No FAILED save inside the loop is refused. */
  predicate ReliableFailedWrites(ticks: seq<Tick>) {
    forall j :: 0 <= j < |ticks| ==>
      !ticks[j].timeoutWriteFails && (ticks[j].poll.Snapshot? ==> !ticks[j].poll.faults.failedWriteFails)
  }

  /** When no FAILED save is refused, the loop never leaves by exception,
      and the first terminal status ends it. */
  lemma {:induction false} ReliableLoopNeverEscapes(ctx: Context, outputKey: string, db: Db, ticks: seq<Tick>, i: nat)
    requires Ends(ticks) && i < |ticks| && ReliableFailedWrites(ticks)
    ensures !MonitorFrom(ctx, outputKey, db, ticks, i).escaped
    ensures !PastDeadline(ticks[i]) && !Continues(ticks[i]) ==> MonitorFrom(ctx, outputKey, db, ticks, i).polls == 1
    decreases |ticks| - i
  {
    var t := ticks[i];
    if !PastDeadline(t) {
      var s := Iteration(ctx, outputKey, db, t.poll);
      if s.Again? {
        ReliableLoopNeverEscapes(ctx, outputKey, s.db, ticks, i + 1);
      }
    }
  }

  // ---------------------------------------------------------------------
  // A whole run
  // ---------------------------------------------------------------------

  /** The state after the run, every status code written in order, the
      number of status requests, the submitted job or why there is none,
      and whether `process_and_monitor` itself ends by raising. */
  datatype RunResult = RunResult(db: Db, writes: seq<int>, polls: nat, job: Result<Job, Failure>, raised: bool)

  /** The `except` of `process_and_monitor`: write FAILED; a raising save
      leaves the method with the exception. */
  function Handle(codes: CodeTable, db: Db, writes: seq<int>, polls: nat, job: Result<Job, Failure>, saveFails: bool): (r: RunResult)
    ensures r.raised <==> Raises(codes, Failed, saveFails)
    ensures r.writes == if r.raised then writes else writes + [Failed]
    ensures r.db == if r.raised then db else WriteStatus(codes, db, Failed)
    ensures r.polls == polls && r.job == job
  {
    match TryWrite(codes, db, Failed, saveFails)
    case Some(d) => RunResult(d, writes + [Failed], polls, job, false)
    case None => RunResult(db, writes, polls, job, true)
  }

  /** The `try` block of `process_and_monitor`: write PROCESSING, prepare
      and submit, then poll. It raises when the PROCESSING save raises,
      when the preparation fails, or when the loop is left by exception. */
  function TryBlock(ctx: Context, db: Db, setup: Setup, ticks: seq<Tick>): RunResult
    requires Ends(ticks)
  {
    match TryWrite(ctx.codes, db, Processing, setup.processingWriteFails)
    case None => RunResult(db, [], 0, Err(NotStarted), true)
    case Some(started) =>
      match Prepare(setup, ctx.analyst)
      case Err(e) => RunResult(started, [Processing], 0, Err(e), true)
      case Ok(job) =>
        var l := MonitorFrom(ctx, job.outputKey, started, ticks, 0);
        RunResult(l.db, [Processing] + l.writes, l.polls, Ok(job), l.escaped)
  }

  /** `process_and_monitor`: the `try` block, and when it raises, the
      handler. */
  function Run(ctx: Context, db: Db, setup: Setup, ticks: seq<Tick>): RunResult
    requires Ends(ticks)
  {
    var a := TryBlock(ctx, db, setup, ticks);
    if a.raised then Handle(ctx.codes, a.db, a.writes, a.polls, a.job, setup.handlerWriteFails) else a
  }

  /** The `try` block either returns, having written PROCESSING and then
      exactly one of COMPLETE and FAILED, or raises, having written at most
      PROCESSING and left the status as it was or at PROCESSING; it writes
      nothing exactly when the PROCESSING save raises. A COMPLETE write
      comes with the video rebound to the result key, and the block stays
      confined to that key and this run's subtitle. */
  lemma TryBlockOutcome(ctx: Context, db: Db, setup: Setup, ticks: seq<Tick>)
    requires Ends(ticks)
    ensures var a := TryBlock(ctx, db, setup, ticks);
            && (!a.raised ==> a.writes == [Processing, Complete] || a.writes == [Processing, Failed])
            && (a.raised ==> a.writes == [] || a.writes == [Processing])
            && (a.writes == [] <==> Raises(ctx.codes, Processing, setup.processingWriteFails))
            && (StatusRowsExist(ctx.codes) && !a.raised ==> a.db.status == Some(a.writes[1]))
            && (StatusRowsExist(ctx.codes) && a.raised ==> a.db.status == db.status || a.db.status == Some(Processing))
            && (Complete in a.writes ==> a.db.filePath == ResultKey(setup.mintTime))
            && Confined(ctx, ResultKey(setup.mintTime), db, a.db)
  {
    var started := TryWrite(ctx.codes, db, Processing, setup.processingWriteFails);
    var job := Prepare(setup, ctx.analyst);
    if started.Some? && job.Ok? {
      var l := MonitorFrom(ctx, job.value.outputKey, started.value, ticks, 0);
      MonitorOutcome(ctx, job.value.outputKey, started.value, ticks, 0);
      assert TryBlock(ctx, db, setup, ticks) == RunResult(l.db, [Processing] + l.writes, l.polls, job, l.escaped);
    }
  }

  /** The order and exclusivity of the status writes that go through.
      A run that returns has written PROCESSING and then exactly one of
      COMPLETE and FAILED, or only FAILED when the PROCESSING save raised;
      with the status rows present the upload ends in that terminal status.
      A run that raises did so because the handler's FAILED save raised, has
      written at most PROCESSING, and leaves the upload in PROCESSING or in
      the status it had. */
  lemma RunWritesInOrder(ctx: Context, db: Db, setup: Setup, ticks: seq<Tick>)
    requires Ends(ticks)
    ensures var r := Run(ctx, db, setup, ticks);
            && (!r.raised ==> r.writes == [Processing, Complete] || r.writes == [Processing, Failed] || r.writes == [Failed])
            && (r.raised ==> r.writes == [] || r.writes == [Processing])
            && (r.raised ==> Raises(ctx.codes, Failed, setup.handlerWriteFails))
            && (r.writes == [] || r.writes == [Failed] ==> Raises(ctx.codes, Processing, setup.processingWriteFails))
            && (StatusRowsExist(ctx.codes) && !r.raised ==> r.db.status == Some(r.writes[|r.writes| - 1]))
            && (StatusRowsExist(ctx.codes) && r.raised ==> r.db.status == db.status || r.db.status == Some(Processing))
  {
    var a := TryBlock(ctx, db, setup, ticks);
    TryBlockOutcome(ctx, db, setup, ticks);
    HandledInOrder(ctx.codes, db.status, a, setup.handlerWriteFails, Raises(ctx.codes, Processing, setup.processingWriteFails));
    assert Run(ctx, db, setup, ticks) == if a.raised then Handle(ctx.codes, a.db, a.writes, a.polls, a.job, setup.handlerWriteFails) else a;
  }

  /** Helper: the handler applied to a `try` block result of the shape
      `TryBlockOutcome` proves keeps the writes in order. */
  lemma HandledInOrder(codes: CodeTable, status: Option<int>, a: RunResult, saveFails: bool, processingRaised: bool)
    requires !a.raised ==> a.writes == [Processing, Complete] || a.writes == [Processing, Failed]
    requires a.raised ==> a.writes == [] || a.writes == [Processing]
    requires a.writes == [] <==> processingRaised
    requires StatusRowsExist(codes) && !a.raised ==> a.db.status == Some(a.writes[1])
    requires StatusRowsExist(codes) && a.raised ==> a.db.status == status || a.db.status == Some(Processing)
    ensures var r := if a.raised then Handle(codes, a.db, a.writes, a.polls, a.job, saveFails) else a;
            && (!r.raised ==> r.writes == [Processing, Complete] || r.writes == [Processing, Failed] || r.writes == [Failed])
            && (r.raised ==> r.writes == [] || r.writes == [Processing])
            && (r.raised ==> Raises(codes, Failed, saveFails))
            && (r.writes == [] || r.writes == [Failed] ==> processingRaised)
            && (StatusRowsExist(codes) && !r.raised ==> r.db.status == Some(r.writes[|r.writes| - 1]))
            && (StatusRowsExist(codes) && r.raised ==> r.db.status == status || r.db.status == Some(Processing))
  {
    if a.raised && StatusRowsExist(codes) {
      assert LookupCode(codes, Failed, StatusGroup).Some?;
    }
  }

  /** With every status save going through, a run writes PROCESSING and
      then exactly one of COMPLETE and FAILED, and returns normally. */
  lemma ReliableRunWritesInOrder(ctx: Context, db: Db, setup: Setup, ticks: seq<Tick>)
    requires Ends(ticks) && ReliableFailedWrites(ticks)
    requires !setup.processingWriteFails && !setup.handlerWriteFails
    ensures var r := Run(ctx, db, setup, ticks);
            !r.raised && (r.writes == [Processing, Complete] || r.writes == [Processing, Failed])
  {
    var a := TryBlock(ctx, db, setup, ticks);
    TryBlockOutcome(ctx, db, setup, ticks);
    var started := WriteStatus(ctx.codes, db, Processing);
    assert TryWrite(ctx.codes, db, Processing, setup.processingWriteFails) == Some(started);
    var job := Prepare(setup, ctx.analyst);
    if job.Ok? {
      var l := MonitorFrom(ctx, job.value.outputKey, started, ticks, 0);
      ReliableLoopNeverEscapes(ctx, job.value.outputKey, started, ticks, 0);
      assert a.raised == l.escaped;
      assert Run(ctx, db, setup, ticks) == a;
    } else {
      assert a.writes == [Processing] && a.raised;
      assert Run(ctx, db, setup, ticks) == Handle(ctx.codes, a.db, a.writes, a.polls, a.job, setup.handlerWriteFails);
    }
  }

  /** A raising PROCESSING save goes straight to the handler: nothing is
      staged or polled, PROCESSING is never recorded, and FAILED is
      written unless that save raises as well. */
  lemma ProcessingWriteRaised(ctx: Context, db: Db, setup: Setup, ticks: seq<Tick>)
    requires Ends(ticks) && Raises(ctx.codes, Processing, setup.processingWriteFails)
    ensures var r := Run(ctx, db, setup, ticks);
            && r.job == Err(NotStarted) && r.polls == 0
            && r.db.filePath == db.filePath && r.db.subtitles == db.subtitles
            && (r.writes == [Failed] <==> !r.raised)
            && (r.writes == [] <==> r.raised)
  {
  }

  /** A loop left by a raising timeout save is handled by the run: FAILED
      is written once more by the handler, unless that save raises too. */
  lemma EscapedLoopIsHandled(ctx: Context, db: Db, setup: Setup, ticks: seq<Tick>)
    requires Ends(ticks) && !Raises(ctx.codes, Processing, setup.processingWriteFails)
    requires Prepare(setup, ctx.analyst).Ok?
    requires MonitorFrom(ctx, Prepare(setup, ctx.analyst).value.outputKey,
                         WriteStatus(ctx.codes, db, Processing), ticks, 0).escaped
    ensures var r := Run(ctx, db, setup, ticks);
            && r.writes == (if Raises(ctx.codes, Failed, setup.handlerWriteFails) then [Processing] else [Processing, Failed])
            && r.raised == Raises(ctx.codes, Failed, setup.handlerWriteFails)
  {
    var job := Prepare(setup, ctx.analyst).value;
    MonitorOutcome(ctx, job.outputKey, WriteStatus(ctx.codes, db, Processing), ticks, 0);
  }

  /** Any failure before or during submission is fatal: no status request
      is made, neither the video path nor the subtitle table changes, and
      with its saves going through the run writes PROCESSING then FAILED. */
  lemma PreparationFailureIsFatal(ctx: Context, db: Db, setup: Setup, ticks: seq<Tick>)
    requires Ends(ticks)
    requires Prepare(setup, ctx.analyst).Err?
    ensures var r := Run(ctx, db, setup, ticks);
            && r.job.Err? && r.polls == 0
            && r.db.filePath == db.filePath && r.db.subtitles == db.subtitles
            && (!Raises(ctx.codes, Processing, setup.processingWriteFails) ==>
                  r.job == Prepare(setup, ctx.analyst) && r.writes[0] == Processing)
            && (!setup.processingWriteFails && !setup.handlerWriteFails ==> r.writes == [Processing, Failed] && !r.raised)
  {
  }

  /** A completed run has its video rebound to the result key minted with
      the job's timestamp; any other run leaves the video path alone or
      rebinds it there. The subtitle table changes at most at this run's
      key. */
  lemma {:induction false} RunRebindsOnlyOnCompletion(ctx: Context, db: Db, setup: Setup, ticks: seq<Tick>)
    requires Ends(ticks)
    ensures var r := Run(ctx, db, setup, ticks);
            && (Complete in r.writes ==> r.db.filePath == ResultKey(setup.mintTime))
            && (r.db.filePath == db.filePath || r.db.filePath == ResultKey(setup.mintTime))
            && r.db.subtitles - {SubtitleKeyOf(ctx)} == db.subtitles - {SubtitleKeyOf(ctx)}
  {
    var a := TryBlock(ctx, db, setup, ticks);
    var r := Run(ctx, db, setup, ticks);
    TryBlockOutcome(ctx, db, setup, ticks);
    assert r.db.filePath == a.db.filePath && r.db.subtitles == a.db.subtitles;
    assert Complete in r.writes ==> Complete in a.writes;
  }

  /** With the clock advancing by the poll interval, a run makes at most
      `MaxPolls` status requests. */
  lemma RunPollsBounded(ctx: Context, db: Db, setup: Setup, ticks: seq<Tick>)
    requires Ends(ticks) && Advancing(ticks)
    ensures Run(ctx, db, setup, ticks).polls <= MaxPolls
  {
    var a := TryBlock(ctx, db, setup, ticks);
    assert Run(ctx, db, setup, ticks).polls == a.polls;
    var started := TryWrite(ctx.codes, db, Processing, setup.processingWriteFails);
    var job := Prepare(setup, ctx.analyst);
    if started.Some? && job.Ok? {
      PollsBounded(ctx, job.value.outputKey, started.value, ticks, 0);
      assert a.polls == MonitorFrom(ctx, job.value.outputKey, started.value, ticks, 0).polls;
    }
  }

  /** A transport error on one poll does not end the loop: a completion
      reported on the next poll, five seconds later, still completes the
      job. */
  lemma TransientPollErrorThenCompletion(ctx: Context, outputKey: string, db: Db, later: seq<Tick>)
    ensures var ticks := [Tick(0, PollError, false), Tick(5, Snapshot(Some("completed"), Object(None), NoFaults), false),
                          Tick(MaxWaitTime + 1, PollError, false)] + later;
            Ends(ticks) ==>
            var l := MonitorFrom(ctx, outputKey, db, ticks, 0);
            l.writes == [Complete] && l.polls == 2 && !l.escaped && l.db.filePath == outputKey
  {
    var done := Snapshot(Some("completed"), Object(None), NoFaults);
    var ticks := [Tick(0, PollError, false), Tick(5, done, false), Tick(MaxWaitTime + 1, PollError, false)] + later;
    if Ends(ticks) {
      assert ticks[0] == Tick(0, PollError, false) && ticks[1] == Tick(5, done, false);
      LowerCaseCompletedSucceeds();
      CompletesAfterOneRetry(ctx, outputKey, db, ticks);
    }
  }

  /** Helper: an iteration that only polls, followed by a clean completion
      within the deadline, completes the job after two requests. */
  lemma CompletesAfterOneRetry(ctx: Context, outputKey: string, db: Db, ticks: seq<Tick>)
    requires Ends(ticks) && 1 < |ticks| && Continues(ticks[0])
    requires !PastDeadline(ticks[1]) && ticks[1].poll.Snapshot? && Classify(ticks[1].poll.status) == Succeeded
    requires ticks[1].poll.output == Object(None) && ticks[1].poll.faults == NoFaults
    ensures var l := MonitorFrom(ctx, outputKey, db, ticks, 0);
            l.writes == [Complete] && l.polls == 2 && !l.escaped && l.db.filePath == outputKey
  {
    ScriptProblemsNeverFail(ctx, outputKey, db, None, NoFaults);
    RemoteCompletionReconciles(ctx, outputKey, db, ticks, 0, 1);
  }

  /** Re-running a reconciliation with the same answers changes nothing
      more: the subtitle is replaced, never duplicated. */
  lemma ReconcileIdempotent(ctx: Context, outputKey: string, db: Db, output: Output, faults: Faults)
    ensures var once := Reconcile(ctx, outputKey, db, output, faults);
            var twice := Reconcile(ctx, outputKey, once.db, output, faults);
            twice == once
  {
    var once := Reconcile(ctx, outputKey, db, output, faults);
    if faults.rebindFails {
      FailReconcileAgain(ctx, db, faults);
    } else {
      var rebound := db.(filePath := outputKey);
      assert once.db.(filePath := outputKey) == once.db;
      match output
      case NotAnObject =>
        FailReconcileAgain(ctx, rebound, faults);
      case Object(script) =>
        var stored := StoreScript(ctx, rebound, script, faults);
        StoreScriptAgain(ctx, rebound, once.db, script, faults);
        if Raises(ctx.codes, Complete, faults.completeWriteFails) {
          FailReconcileAgain(ctx, stored, faults);
        }
    }
  }

  /** The handler's FAILED write, made a second time, changes nothing
      more. */
  lemma FailReconcileAgain(ctx: Context, db: Db, faults: Faults)
    ensures var once := FailReconcile(ctx, db, faults);
            FailReconcile(ctx, once.db, faults) == once
  {
  }

  /** Storing a script into a state that already holds it changes
      nothing. */
  lemma StoreScriptAgain(ctx: Context, db: Db, e: Db, script: Option<string>, faults: Faults)
    requires e.subtitles == StoreScript(ctx, db, script, faults).subtitles
    ensures StoreScript(ctx, e, script, faults) == e
  {
    if ScriptLoads(ctx, script, faults) {
      var k := SubtitleKeyOf(ctx);
      var v := ctx.objects[ScriptKeyOf(script.value)].content;
      UpdateSame(db.subtitles, k, v);
    }
  }

  /** Updating a map at a key with the value it already holds there
      changes nothing. */
  lemma UpdateSame<K, V>(m: map<K, V>, k: K, v: V)
    ensures m[k := v][k := v] == m[k := v]
  {
  }

  /** A second successful reconciliation for the same upload and analyst
      overwrites the stored subtitle: the table keeps its keys and holds
      the newer script. */
  lemma RerunReplacesSubtitle(ctx: Context, outputKey: string, db: Db, first: Output, second: Output, faults: Faults)
    requires !faults.rebindFails && first.Object? && second.Object?
    requires ScriptLoads(ctx, first.script, faults) && ScriptLoads(ctx, second.script, faults)
    ensures var once := Reconcile(ctx, outputKey, db, first, faults);
            var twice := Reconcile(ctx, outputKey, once.db, second, faults);
            && twice.db.subtitles.Keys == once.db.subtitles.Keys == db.subtitles.Keys + {SubtitleKeyOf(ctx)}
            && twice.db.subtitles[SubtitleKeyOf(ctx)] == ctx.objects[ScriptKeyOf(second.script.value)].content
  {
    var once := Reconcile(ctx, outputKey, db, first, faults);
    ReconcileStoresScript(ctx, outputKey, db, first, faults);
    ReconcileStoresScript(ctx, outputKey, once.db, second, faults);
    UpdateTwice(db.subtitles, SubtitleKeyOf(ctx),
                ctx.objects[ScriptKeyOf(first.script.value)].content,
                ctx.objects[ScriptKeyOf(second.script.value)].content);
  }

  /** A reconciliation whose script loads stores that script at this
      run's key, whether or not its status writes go through. */
  lemma ReconcileStoresScript(ctx: Context, outputKey: string, db: Db, output: Output, faults: Faults)
    requires !faults.rebindFails && output.Object? && ScriptLoads(ctx, output.script, faults)
    ensures Reconcile(ctx, outputKey, db, output, faults).db.subtitles
            == db.subtitles[SubtitleKeyOf(ctx) := ctx.objects[ScriptKeyOf(output.script.value)].content]
  {
  }

  /** Two updates at one key: the keys grow by that key once, and the
      second value wins. */
  lemma UpdateTwice<K, V>(m: map<K, V>, k: K, a: V, b: V)
    ensures m[k := a][k := b].Keys == m[k := a].Keys == m.Keys + {k}
    ensures m[k := a][k := b][k] == b
  {
  }

  /** A missing, unreadable or invalid script never fails the job: after a
      saved rebinding of an object-valued output and a successful COMPLETE
      save, the code is COMPLETE whatever the script sub-step met. */
  lemma ScriptProblemsNeverFail(ctx: Context, outputKey: string, db: Db, script: Option<string>, faults: Faults)
    requires !faults.rebindFails && !faults.completeWriteFails
    ensures Reconcile(ctx, outputKey, db, Object(script), faults).code == Some(Complete)
    ensures !ScriptLoads(ctx, script, faults) ==>
              Reconcile(ctx, outputKey, db, Object(script), faults).db.subtitles == db.subtitles
  {
  }
}
