/**
 * One export job end to end: submit, poll, and download when the gate allows.
 *
 * The job's observable behaviour is the list of requests it sends and the
 * file it leaves behind; each phase reads its replies from its own script.
 */
module Export {
  import opened Wrappers
  import opened Http
  import opened Paths
  import opened Polling
  import opened Download

  /**
   * `startExport` on the reply to the submit POST: the export id from the
   * body of a 202 response, and None for every other status, for a body that
   * does not parse, and for a request that raised.
   */
  function StartExport(reply: Reply): (exportId: Option<string>)
    ensures exportId.Some? ==> reply.Got? && reply.response.code == 202 && reply.response.body.Some?
    ensures reply.Got? && reply.response.code == 202 && reply.response.body.Some? ==>
      exportId == reply.response.body.value.id
  {
    match reply
    case Fault => None
    case Got(r) =>
      if r.code == 202 then
        match r.body
        case None => None
        case Some(b) => b.id
      else None
  }

  /** The gate of `fullExport`: the status is Succeeded and its response came with code 200. */
  predicate DownloadAllowed(o: PollOutcome)
  {
    o.Done? && o.status == "Succeeded" && o.last.Some? && o.last.value.code == 200
  }

  /** Everything one run of `fullExport` does. */
  datatype Run = Run(
    requests: seq<Request>,
    exportId: Option<string>,
    poll: Option<PollOutcome>,
    file: Option<SavedFile>)

  /** `fullExport` against a scripted service. */
  function ExportRun(ctx: ExportContext, submit: Reply, polls: seq<Reply>, stream: Stream, timestamp: string): Run
  {
    var submitted := [Request(Post, SubmitUrl(ctx))];
    var exportId := StartExport(submit);
    if !Truthy(exportId) then Run(submitted, exportId, None, None)
    else
      var o := Poll(polls);
      var polled := submitted + Repeat(Request(Get, StatusUrl(ctx, exportId.value)), Used(o, polls));
      if DownloadAllowed(o) then
        var d := DownloadEffectOf(ctx, o.last.value, exportId.value, stream, timestamp);
        Run(polled + d.requests, exportId, Some(o), d.file)
      else Run(polled, exportId, Some(o), None)
  }

  /** `fullExport`: submit, poll while running, then download when the gate allows. */
  method FullExport(ctx: ExportContext, submit: Reply, polls: seq<Reply>, stream: Stream, timestamp: string)
    returns (run: Run)
    ensures run == ExportRun(ctx, submit, polls, stream, timestamp)
  {
    var requests := [Request(Post, SubmitUrl(ctx))];
    var exportId := StartExport(submit);
    if !Truthy(exportId) {
      return Run(requests, exportId, None, None);
    }
    var outcome, pollRequests := PollExportStatus(ctx, exportId.value, polls);
    requests := requests + pollRequests;
    if outcome.Done? && outcome.status == "Succeeded" && outcome.last.value.code == 200 {
      var d := DownloadFile(ctx, outcome.last.value, exportId.value, stream, timestamp);
      run := Run(requests + d.requests, exportId, Some(outcome), d.file);
    } else {
      run := Run(requests, exportId, Some(outcome), None);
    }
  }

  /**
   * Without an export id (a failed submit, or an empty id) the job sends the
   * submit request only: it never polls and never downloads.
   */
  lemma NoExportIdNoPoll(ctx: ExportContext, submit: Reply, polls: seq<Reply>, stream: Stream, timestamp: string)
    requires !Truthy(StartExport(submit))
    ensures var run := ExportRun(ctx, submit, polls, stream, timestamp);
      run.requests == [Request(Post, SubmitUrl(ctx))] && run.poll == None && run.file == None
  {
  }

  /**
   * With an export id, the job sends the submit request and then one status
   * request per reply polling consumed, and at most one request after those.
   */
  lemma RequestsInOrder(ctx: ExportContext, submit: Reply, polls: seq<Reply>, stream: Stream, timestamp: string)
    requires Truthy(StartExport(submit))
    ensures var run := ExportRun(ctx, submit, polls, stream, timestamp);
      var n := Used(Poll(polls), polls);
      && n + 1 <= |run.requests| <= n + 2
      && run.requests[0] == Request(Post, SubmitUrl(ctx))
      && (forall k :: 1 <= k <= n ==> run.requests[k] == Request(Get, StatusUrl(ctx, StartExport(submit).value)))
  {
  }

  /**
   * A download request is sent, and a file written, only when there is an
   * export id, the poll status is Succeeded with code 200, and the context
   * does not skip downloads.
   */
  lemma DownloadOnlyThroughGate(ctx: ExportContext, submit: Reply, polls: seq<Reply>, stream: Stream, timestamp: string)
    ensures var run := ExportRun(ctx, submit, polls, stream, timestamp);
      (run.file.Some? || |run.requests| == Used(Poll(polls), polls) + 2) ==>
        Truthy(StartExport(submit)) && DownloadAllowed(Poll(polls)) && !ctx.skipDownload
  {
  }

  /** A Succeeded status carried by a 202 response does not download. */
  lemma SucceededOn202DoesNotDownload(ctx: ExportContext, submit: Reply, polls: seq<Reply>, stream: Stream, timestamp: string)
    requires Truthy(StartExport(submit))
    requires Poll(polls).Done? && Poll(polls).status == "Succeeded"
    requires Poll(polls).last.value.code == 202
    ensures var run := ExportRun(ctx, submit, polls, stream, timestamp);
      run.file == None && |run.requests| == 1 + Poll(polls).used
  {
  }

  /** In skip mode the job never sends a download request and never writes a file. */
  lemma SkipModeNeverDownloads(ctx: ExportContext, submit: Reply, polls: seq<Reply>, stream: Stream, timestamp: string)
    requires ctx.skipDownload
    ensures var run := ExportRun(ctx, submit, polls, stream, timestamp);
      && run.file == None
      && forall k :: 0 <= k < |run.requests| ==>
           run.requests[k] == Request(Post, SubmitUrl(ctx))
           || (run.requests[k].verb == Get && ExportIdOfUrl(ctx, run.requests[k].url) == StartExport(submit))
  {
  }

  /**
   * When the gate is open and a location is given, the last request is the
   * download and a 200 stream is saved under the export's file name.
   */
  lemma GateOpenDownloads(ctx: ExportContext, submit: Reply, polls: seq<Reply>, stream: Stream, timestamp: string)
    requires Truthy(StartExport(submit)) && DownloadAllowed(Poll(polls)) && !ctx.skipDownload
    requires Poll(polls).last.value.body.value.resourceLocation.Some?
    requires stream.Streamed? && stream.code == 200
    ensures var run := ExportRun(ctx, submit, polls, stream, timestamp);
      && run.requests[|run.requests| - 1] == Request(Get, Poll(polls).last.value.body.value.resourceLocation.value)
      && run.file == Some(SavedFile(Filename(ctx.reportId, StartExport(submit).value, timestamp), Written(stream.chunks)))
  {
  }

  /**
   * A job whose submit is accepted with id "abc", which reports Running at
   * 40% with code 202 and then Succeeded with code 200, and whose download
   * streams the two bytes AA BB, sends four requests and saves a two-byte file.
   */
  lemma ScenarioSucceeded(ctx: ExportContext, timestamp: string)
    requires !ctx.skipDownload
    ensures
      var submit := Got(Response(202, Some(Body(Some("abc"), None, None))));
      var polls := [
        Got(Response(202, Some(Body(None, Some("Running"), None)))),
        Got(Response(200, Some(Body(None, Some("Succeeded"), Some("https://x/y")))))];
      var run := ExportRun(ctx, submit, polls, Streamed(200, [[0xAA, 0xBB], []]), timestamp);
      && run.requests == [
           Request(Post, SubmitUrl(ctx)),
           Request(Get, StatusUrl(ctx, "abc")),
           Request(Get, StatusUrl(ctx, "abc")),
           Request(Get, "https://x/y")]
      && run.file == Some(SavedFile(Filename(ctx.reportId, "abc", timestamp), [0xAA, 0xBB]))
  {
    var polls := [
      Got(Response(202, Some(Body(None, Some("Running"), None)))),
      Got(Response(200, Some(Body(None, Some("Succeeded"), Some("https://x/y")))))];
    assert Running(polls[0]);
    assert Poll(polls) == Done("Succeeded", Some(polls[1].response), 2);
    var chunks: seq<seq<byte>> := [[0xAA, 0xBB], []];
    WrittenStopsAtEmpty([chunks[0]], []);
    assert Written(chunks) == [0xAA, 0xBB] by {
      assert chunks == [chunks[0]] + [[]] + [];
      assert Concat([chunks[0]]) == chunks[0] by {
        assert [chunks[0]][..0] == [];
      }
    }
  }

  /** A submit rejected with 400 ends the job after that single request. */
  lemma ScenarioRejected(ctx: ExportContext, polls: seq<Reply>, stream: Stream, timestamp: string)
    ensures
      var submit := Got(Response(400, Some(Body(None, None, None))));
      var run := ExportRun(ctx, submit, polls, stream, timestamp);
      run.requests == [Request(Post, SubmitUrl(ctx))] && run.file == None
  {
  }
}
