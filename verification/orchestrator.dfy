/** The orchestrator as the source runs it: step by step, writing the
    upload record and the subtitle table in place. Each method is proved to
    leave exactly the state the specification in `Workflow` describes, so
    the properties proved there (one terminal write after PROCESSING,
    rebinding only on completion, bounded polling, idempotent subtitle
    storage) hold of these methods too. */
module Orchestrator {
  import opened Wrappers
  import opened Storage
  import opened Workflow
  import opened CommonCodes

  /** The client together with the records it writes: the common-code
      table and the object store it reads, the upload's status and video
      path, and the subtitle table. `writes` records every status write that
      returned without raising, in order. */
  class RunPodClient {
    const codes: CodeTable
    const objects: map<string, ObjectBody>
    const upload: int
    var status: Option<int>
    var filePath: string
    var subtitles: map<SubtitleKey, string>
    ghost var writes: seq<int>

    /** The state the specification talks about. */
    function State(): Db
      reads this
    {
      Db(status, filePath, subtitles)
    }

    /** The fixed part of a run for the given internal analyst code. */
    function Ctx(analyst: int): Context {
      Context(codes, upload, analyst, objects)
    }

    constructor (codes: CodeTable, objects: map<string, ObjectBody>, upload: int,
                 status: Option<int>, filePath: string, subtitles: map<SubtitleKey, string>)
      ensures this.codes == codes && this.objects == objects && this.upload == upload
      ensures State() == Db(status, filePath, subtitles) && writes == []
    {
      this.codes := codes;
      this.objects := objects;
      this.upload := upload;
      this.status := status;
      this.filePath := filePath;
      this.subtitles := subtitles;
      writes := [];
    }

    /** `_update_status`: looks the code up among the STATUS rows and, when
        it is there, saves it as the upload's status; `saveFails` is the
        database's answer to that save. Returns false when the save raises,
        which leaves the stored state and the log as they were. */
    method UpdateStatus(code: int, saveFails: bool) returns (ok: bool)
      modifies this
      ensures ok <==> !Raises(codes, code, saveFails)
      ensures ok ==> State() == WriteStatus(codes, old(State()), code) && writes == old(writes) + [code]
      ensures !ok ==> State() == old(State()) && writes == old(writes)
    {
      var row := LookupCode(codes, code, StatusGroup);
      if row.Some? {
        if saveFails {
          return false;
        }
        status := Some(row.value);
      }
      writes := writes + [code];
      ok := true;
    }

    /** `process_and_monitor`: the `try` block, and on an exception the
        handler's FAILED write. Returns whether that write raised in turn,
        so that the method itself ends by raising. */
    method ProcessAndMonitor(analyst: int, setup: Setup, ticks: seq<Tick>) returns (raised: bool)
      requires Ends(ticks)
      modifies this
      ensures var r := Run(Ctx(analyst), old(State()), setup, ticks);
              State() == r.db && writes == old(writes) + r.writes && raised == r.raised
    {
      var failed := TryProcess(analyst, setup, ticks);
      raised := false;
      if failed {
        var ok := UpdateStatus(Failed, setup.handlerWriteFails);
        raised := !ok;
      }
    }

    /** The `try` block of `process_and_monitor`: PROCESSING, then staging,
        minting and submission, then the polling loop. Returns whether it
        raised: a raising PROCESSING save, a failure before the loop, or a
        loop left by exception. */
    method TryProcess(analyst: int, setup: Setup, ticks: seq<Tick>) returns (failed: bool)
      requires Ends(ticks)
      modifies this
      ensures var a := TryBlock(Ctx(analyst), old(State()), setup, ticks);
              State() == a.db && writes == old(writes) + a.writes && failed == a.raised
    {
      var started := UpdateStatus(Processing, setup.processingWriteFails);
      if !started {
        return true;
      }
      var job := Prepare(setup, analyst);
      if job.Err? {
        return true;
      }
      var polls, escaped := MonitorLoop(analyst, job.value.outputKey, ticks);
      failed := escaped;
    }

    /** `_monitor_loop`: check the deadline, poll, and on a terminal status
        reconcile or fail; otherwise, or when the FAILED write of a terminal
        status raised, sleep and go round again. Returns the number of
        status requests made and whether the loop was left by the exception
        of a raising timeout write. */
    method MonitorLoop(analyst: int, outputKey: string, ticks: seq<Tick>) returns (polls: nat, escaped: bool)
      requires Ends(ticks)
      modifies this
      ensures var l := MonitorFrom(Ctx(analyst), outputKey, old(State()), ticks, 0);
              State() == l.db && writes == old(writes) + l.writes && polls == l.polls && escaped == l.escaped
    {
      ghost var whole := MonitorFrom(Ctx(analyst), outputKey, State(), ticks, 0);
      var i := 0;
      polls := 0;
      escaped := false;
      while true
        invariant 0 <= i < |ticks|
        invariant writes == old(writes)
        invariant MonitorFrom(Ctx(analyst), outputKey, State(), ticks, i).db == whole.db
        invariant MonitorFrom(Ctx(analyst), outputKey, State(), ticks, i).writes == whole.writes
        invariant MonitorFrom(Ctx(analyst), outputKey, State(), ticks, i).escaped == whole.escaped
        invariant MonitorFrom(Ctx(analyst), outputKey, State(), ticks, i).polls + polls == whole.polls
        decreases |ticks| - i
      {
        ghost var before := State();
        var t := ticks[i];
        if t.elapsed > MaxWaitTime {
          var ok := UpdateStatus(Failed, t.timeoutWriteFails);
          escaped := !ok;
          break;
        }
        polls := polls + 1;
        match t.poll {
          case PollError =>
          case Snapshot(status, output, faults) =>
            var verdict := Classify(status);
            if verdict == Succeeded {
              var code := ReconcileResult(analyst, outputKey, output, faults);
              if code.Some? {
                break;
              }
            } else if verdict == RemoteFailed {
              var ok := UpdateStatus(Failed, faults.failedWriteFails);
              if ok {
                break;
              }
            }
        }
        assert Iteration(Ctx(analyst), outputKey, before, t.poll) == Again(State());
        i := i + 1;
      }
    }

    /** The COMPLETED/SUCCESS branch: rebind the video to the result key,
        store the script if one is reported, write COMPLETE; a failure of
        the rebinding, of reading `output` or of the COMPLETE write writes
        FAILED instead. Returns the code written, or None when the FAILED
        write raised too. */
    method ReconcileResult(analyst: int, outputKey: string, output: Output, faults: Faults) returns (code: Option<int>)
      modifies this
      ensures var r := Reconcile(Ctx(analyst), outputKey, old(State()), output, faults);
              State() == r.db && code == r.code
      ensures writes == old(writes) + (if code.Some? then [code.value] else [])
    {
      if faults.rebindFails {
        var ok := UpdateStatus(Failed, faults.failedWriteFails);
        return if ok then Some(Failed) else None;
      }
      filePath := outputKey;
      match output
      case NotAnObject =>
        var ok := UpdateStatus(Failed, faults.failedWriteFails);
        code := if ok then Some(Failed) else None;
      case Object(script) =>
        if script.Some? && script.value != "" {
          StoreSubtitle(analyst, script.value, faults);
        }
        var completed := UpdateStatus(Complete, faults.completeWriteFails);
        if completed {
          code := Some(Complete);
        } else {
          var ok := UpdateStatus(Failed, faults.failedWriteFails);
          code := if ok then Some(Failed) else None;
        }
    }

    /** The script sub-step: fetch the object named by the URL's path,
        decode it, check it is JSON, and upsert it as the subtitle of
        (upload, commentator). Every failure leaves the table alone. */
    method StoreSubtitle(analyst: int, scriptUrl: string, faults: Faults)
      requires scriptUrl != ""
      modifies this
      ensures State() == StoreScript(Ctx(analyst), old(State()), Some(scriptUrl), faults)
      ensures writes == old(writes)
    {
      ghost var db0 := State();
      ghost var loads := ScriptLoads(Ctx(analyst), Some(scriptUrl), faults);
      if !UrlSplits(scriptUrl) {
        assert !loads;
        return;
      }
      var key := ScriptKeyOf(scriptUrl);
      if faults.fetchFails || key !in objects {
        assert !loads;
        return;
      }
      match objects[key]
      case Undecodable =>
        assert !loads;
      case Body(content, isJson) =>
        if isJson && !faults.upsertFails {
          var commentator := LookupCode(codes, analyst, CommentatorGroup);
          assert loads && SubtitleKey(upload, commentator) == SubtitleKeyOf(Ctx(analyst));
          subtitles := subtitles[SubtitleKey(upload, commentator) := content];
          assert State() == db0.(subtitles := db0.subtitles[SubtitleKeyOf(Ctx(analyst)) := content]);
        } else {
          assert !loads;
        }
    }
  }
}
