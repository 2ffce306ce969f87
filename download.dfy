/**
 * Downloading a finished export: the skip gate, the output name and the loop
 * that copies the streamed chunks into the output file.
 */
module Download {
  import opened Wrappers
  import opened Http
  import opened Paths

  /** The chunks in order, one after the other. */
  function Concat(chunks: seq<seq<byte>>): seq<byte>
  {
    if chunks == [] then [] else Concat(chunks[..|chunks| - 1]) + chunks[|chunks| - 1]
  }

  /** The sum of the chunks' lengths. */
  function TotalLength(chunks: seq<seq<byte>>): nat
  {
    if chunks == [] then 0 else |chunks[0]| + TotalLength(chunks[1..])
  }

  /** The chunks the copy loop writes: those before the first empty chunk. */
  function BeforeFirstEmpty(chunks: seq<seq<byte>>): (r: seq<seq<byte>>)
    ensures r <= chunks
    ensures forall k :: 0 <= k < |r| ==> r[k] != []
    ensures |r| < |chunks| ==> chunks[|r|] == []
  {
    if chunks == [] || chunks[0] == [] then [] else [chunks[0]] + BeforeFirstEmpty(chunks[1..])
  }

  /** The bytes the output file holds after the copy loop. */
  function Written(chunks: seq<seq<byte>>): seq<byte>
  {
    Concat(BeforeFirstEmpty(chunks))
  }

  /**
   * The copy loop of `downloadFile`: append each streamed chunk to the file,
   * stopping at the first empty chunk or at the end of the stream.
   */
  method CopyChunks(chunks: seq<seq<byte>>) returns (file: seq<byte>)
    ensures file == Written(chunks)
  {
    file := [];
    var i := 0;
    while i < |chunks|
      invariant i <= |chunks|
      invariant forall k :: 0 <= k < i ==> chunks[k] != []
      invariant file == Concat(chunks[..i])
    {
      var chunk := chunks[i];
      if chunk == [] {
        break;
      }
      file := file + chunk;
      assert chunks[..i + 1][..i] == chunks[..i];
      i := i + 1;
    }
    BeforeFirstEmptyAt(chunks, i);
  }

  /** The chunks before the first empty one are exactly the first `i` when `i` is where the loop stops. */
  lemma BeforeFirstEmptyAt(chunks: seq<seq<byte>>, i: nat)
    requires i <= |chunks|
    requires forall k :: 0 <= k < i ==> chunks[k] != []
    requires i < |chunks| ==> chunks[i] == []
    ensures BeforeFirstEmpty(chunks) == chunks[..i]
  {
  }

  lemma {:induction false} ConcatAppend(a: seq<seq<byte>>, b: seq<seq<byte>>)
    ensures Concat(a + b) == Concat(a) + Concat(b)
    decreases |b|
  {
    if b == [] {
      assert a + b == a;
    } else {
      var b' := b[..|b| - 1];
      assert (a + b)[..|a + b| - 1] == a + b';
      ConcatAppend(a, b');
    }
  }

  /** The file size is the sum of the lengths of the chunks concatenated. */
  lemma {:induction false} ConcatLength(chunks: seq<seq<byte>>)
    ensures |Concat(chunks)| == TotalLength(chunks)
    decreases |chunks|
  {
    if chunks != [] {
      assert chunks == [chunks[0]] + chunks[1..];
      ConcatAppend([chunks[0]], chunks[1..]);
      assert Concat([chunks[0]]) == chunks[0] by {
        assert [chunks[0]][..0] == [];
      }
      ConcatLength(chunks[1..]);
    }
  }

  /**
   * Order is preserved: chunk `k` sits in the file right after the bytes of
   * the chunks before it.
   */
  lemma ChunkInPlace(chunks: seq<seq<byte>>, k: nat)
    requires k < |chunks|
    ensures TotalLength(chunks[..k]) + |chunks[k]| <= |Concat(chunks)|
    ensures Concat(chunks)[TotalLength(chunks[..k])..TotalLength(chunks[..k]) + |chunks[k]|] == chunks[k]
  {
    var before, rest := chunks[..k], chunks[k + 1..];
    assert chunks == before + [chunks[k]] + rest;
    ConcatAppend(before + [chunks[k]], rest);
    ConcatAppend(before, [chunks[k]]);
    assert Concat([chunks[k]]) == chunks[k] by {
      assert [chunks[k]][..0] == [];
    }
    ConcatLength(before);
  }

  /** The size of the written file is the sum of the lengths of the chunks before the first empty one. */
  lemma WrittenSize(chunks: seq<seq<byte>>)
    ensures |Written(chunks)| == TotalLength(BeforeFirstEmpty(chunks))
  {
    ConcatLength(BeforeFirstEmpty(chunks));
  }

  /** Nothing streamed after the first empty chunk reaches the file. */
  lemma WrittenStopsAtEmpty(before: seq<seq<byte>>, rest: seq<seq<byte>>)
    requires forall k :: 0 <= k < |before| ==> before[k] != []
    ensures Written(before + [[]] + rest) == Concat(before)
  {
    var chunks := before + [[]] + rest;
    BeforeFirstEmptyAt(chunks, |before|);
    assert chunks[..|before|] == before;
  }

  /** A file the client saved: its name and its bytes. */
  datatype SavedFile = SavedFile(name: string, data: seq<byte>)

  /** What `downloadFile` does: the requests it issues and the file it leaves behind. */
  datatype DownloadEffect = DownloadEffect(requests: seq<Request>, file: Option<SavedFile>)

  /**
   * `downloadFile` for the status response `pollResponse` (whose body already
   * parsed) and the streamed reply `stream` to the download request.
   */
  function DownloadEffectOf(ctx: ExportContext, pollResponse: Response, exportId: string, stream: Stream, timestamp: string): (e: DownloadEffect)
    requires pollResponse.body.Some?
    ensures ctx.skipDownload ==> e.requests == [] && e.file == None
    ensures e.requests != [] <==> !ctx.skipDownload && pollResponse.body.value.resourceLocation.Some?
    ensures e.requests != [] ==> e.requests == [Request(Get, pollResponse.body.value.resourceLocation.value)]
    ensures e.file.Some? <==> e.requests != [] && stream.Streamed? && stream.code == 200
    ensures e.file.Some? ==> e.file.value.name == Filename(ctx.reportId, exportId, timestamp)
    ensures e.file.Some? ==> e.file.value.data == Written(stream.chunks)
  {
    if ctx.skipDownload then DownloadEffect([], None)
    else match pollResponse.body.value.resourceLocation
      // a missing location makes the request itself raise: nothing is sent
      case None => DownloadEffect([], None)
      case Some(url) =>
        var file :=
          if stream.Streamed? && stream.code == 200
          then Some(SavedFile(Filename(ctx.reportId, exportId, timestamp), Written(stream.chunks)))
          else None;
        DownloadEffect([Request(Get, url)], file)
  }

  /** `downloadFile`, running the copy loop on the streamed chunks. */
  method DownloadFile(ctx: ExportContext, pollResponse: Response, exportId: string, stream: Stream, timestamp: string)
    returns (e: DownloadEffect)
    requires pollResponse.body.Some?
    ensures e == DownloadEffectOf(ctx, pollResponse, exportId, stream, timestamp)
  {
    var downloadUrl := pollResponse.body.value.resourceLocation;
    if ctx.skipDownload {
      return DownloadEffect([], None);
    }
    if downloadUrl.None? {
      return DownloadEffect([], None);
    }
    var requests := [Request(Get, downloadUrl.value)];
    match stream
    case StreamFault =>
      e := DownloadEffect(requests, None);
    case Streamed(code, chunks) =>
      if code == 200 {
        var name := Filename(ctx.reportId, exportId, timestamp);
        var data := CopyChunks(chunks);
        e := DownloadEffect(requests, Some(SavedFile(name, data)));
      } else {
        e := DownloadEffect(requests, None);
      }
  }
}
