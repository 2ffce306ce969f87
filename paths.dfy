/**
 * The export context and the names the client builds from it: the optional
 * workspace segment, the submit and status URLs, and the output file name.
 */
module Paths {
  import opened Wrappers
  import opened Http

  /**
   * The configuration one export run uses. The source's ExportContext sets
   * these once in its initializer and never changes them, so it is a value here.
   * The access token, headers and export request body only travel to the
   * HTTP layer and are not part of this model.
   */
  datatype ExportContext = ExportContext(
    workspaceId: Option<string>,
    reportId: string,
    host: string,
    skipDownload: bool)

  /** The workspace segment: `groups/<id>/` for a truthy workspace id, empty otherwise. */
  function GroupPath(workspaceId: Option<string>): (p: string)
    ensures p == "" <==> !Truthy(workspaceId)
    ensures WorkspaceOfGroupPath(p) == (if Truthy(workspaceId) then workspaceId else None)
  {
    if Truthy(workspaceId) then
      var w := workspaceId.value;
      var p := "groups/" + w + "/";
      assert p[..7] == "groups/" && p[7..|p| - 1] == w;
      p
    else ""
  }

  /** Reads the workspace id back out of a group path segment. */
  function WorkspaceOfGroupPath(p: string): Option<string>
  {
    if |p| > 8 && p[..7] == "groups/" && p[|p| - 1] == '/' then Some(p[7..|p| - 1]) else None
  }

  /** The resource path shared by the submit and status URLs. */
  function ReportBase(ctx: ExportContext): string
  {
    ctx.host + "/v1.0/myorg/" + GroupPath(ctx.workspaceId) + "reports/" + ctx.reportId
  }

  /** Where a new export job is posted. */
  function SubmitUrl(ctx: ExportContext): string
  {
    ReportBase(ctx) + "/ExportTo"
  }

  /** Where the status of export `exportId` is read. */
  function StatusUrl(ctx: ExportContext, exportId: string): string
  {
    ReportBase(ctx) + "/exports/" + exportId
  }

  /** The export id a status URL of this context names, if `url` is one. */
  function ExportIdOfUrl(ctx: ExportContext, url: string): Option<string>
  {
    var prefix := ReportBase(ctx) + "/exports/";
    if |prefix| <= |url| && url[..|prefix|] == prefix then Some(url[|prefix|..]) else None
  }

  /** A status URL names exactly the export it was built for. */
  lemma StatusUrlRoundTrip(ctx: ExportContext, exportId: string)
    ensures ExportIdOfUrl(ctx, StatusUrl(ctx, exportId)) == Some(exportId)
  {
  }

  /** Distinct export ids are polled at distinct URLs. */
  lemma StatusUrlInjective(ctx: ExportContext, a: string, b: string)
    requires StatusUrl(ctx, a) == StatusUrl(ctx, b)
    ensures a == b
  {
    StatusUrlRoundTrip(ctx, a);
    StatusUrlRoundTrip(ctx, b);
  }

  /** The submit URL is never mistaken for a status URL of the same report. */
  lemma SubmitUrlIsNoStatusUrl(ctx: ExportContext)
    ensures ExportIdOfUrl(ctx, SubmitUrl(ctx)) == None
  {
    var base := ReportBase(ctx);
    var prefix := base + "/exports/";
    var url := SubmitUrl(ctx);
    assert |url| == |prefix|;
    assert url[|base| + 1] == 'E' && prefix[|base| + 1] == 'e';
    assert url[..|prefix|] != prefix by {
      assert url[..|prefix|][|base| + 1] != prefix[|base| + 1];
    }
  }

  /** Path segments joined by slashes: an independent reading of a URL path. */
  function Join(segments: seq<string>): string
  {
    if |segments| == 0 then ""
    else if |segments| == 1 then segments[0]
    else segments[0] + "/" + Join(segments[1..])
  }

  /** The segments of the report resource below the host. */
  function ReportSegments(ctx: ExportContext): seq<string>
  {
    ["v1.0", "myorg"]
    + (if Truthy(ctx.workspaceId) then ["groups", ctx.workspaceId.value] else [])
    + ["reports", ctx.reportId]
  }

  lemma {:induction false} JoinAppend(a: seq<string>, b: seq<string>)
    requires |a| > 0 && |b| > 0
    ensures Join(a + b) == Join(a) + "/" + Join(b)
  {
    if |a| == 1 {
      assert (a + b)[1..] == b;
    } else {
      assert (a + b)[1..] == a[1..] + b;
      JoinAppend(a[1..], b);
    }
  }

  /**
   * The report base is the host followed by the report segments: the group
   * segment's trailing slash joins it to "reports" with exactly one slash.
   */
  lemma ReportBaseSegments(ctx: ExportContext)
    ensures ReportBase(ctx) == ctx.host + "/" + Join(ReportSegments(ctx))
  {
    var api, reports := ["v1.0", "myorg"], ["reports", ctx.reportId];
    assert Join(api) == "v1.0/myorg";
    assert Join(reports) == "reports/" + ctx.reportId;
    if Truthy(ctx.workspaceId) {
      var groups := ["groups", ctx.workspaceId.value];
      assert Join(groups) == "groups/" + ctx.workspaceId.value;
      JoinAppend(api, groups);
      JoinAppend(api + groups, reports);
      assert ReportSegments(ctx) == api + groups + reports;
      SlashJoin(ctx.host, "v1.0/myorg", "groups/" + ctx.workspaceId.value, "reports/" + ctx.reportId);
    } else {
      JoinAppend(api, reports);
      assert ReportSegments(ctx) == api + reports;
      SlashJoin(ctx.host, "v1.0/myorg", "", "reports/" + ctx.reportId);
    }
  }

  /** Rebracketing the pieces of a report base; `g` is the group segment without its slash. */
  lemma SlashJoin(h: string, api: string, g: string, tail: string)
    requires api == "v1.0/myorg"
    ensures g != "" ==> h + "/v1.0/myorg/" + (g + "/") + tail == h + "/" + (api + "/" + g + "/" + tail)
    ensures h + "/v1.0/myorg/" + "" + tail == h + "/" + (api + "/" + tail)
  {
    assert "/" + api + "/" == "/v1.0/myorg/";
  }

  /** The submit URL is the report resource followed by the ExportTo segment. */
  lemma SubmitUrlSegments(ctx: ExportContext)
    ensures SubmitUrl(ctx) == ctx.host + "/" + Join(ReportSegments(ctx) + ["ExportTo"])
  {
    ReportBaseSegments(ctx);
    JoinAppend(ReportSegments(ctx), ["ExportTo"]);
  }

  /** The status URL is the report resource followed by `exports` and the export id. */
  lemma StatusUrlSegments(ctx: ExportContext, exportId: string)
    ensures StatusUrl(ctx, exportId) == ctx.host + "/" + Join(ReportSegments(ctx) + ["exports", exportId])
  {
    ReportBaseSegments(ctx);
    assert Join(["exports", exportId]) == "exports/" + exportId;
    JoinAppend(ReportSegments(ctx), ["exports", exportId]);
  }

  /** How many characters of the export id the file name keeps. */
  const IdPartLength: nat := 20

  /** Python's `exportId[:20]`: the longest prefix of at most 20 characters. */
  function IdPart(exportId: string): (p: string)
    ensures |p| <= IdPartLength
    ensures p <= exportId
    ensures |exportId| <= IdPartLength ==> p == exportId
    ensures |exportId| >= IdPartLength ==> |p| == IdPartLength
  {
    if |exportId| <= IdPartLength then exportId else exportId[..IdPartLength]
  }

  /** The output file for a downloaded export. */
  function Filename(reportId: string, exportId: string, timestamp: string): (name: string)
    ensures |name| == 23 + |reportId| + |IdPart(exportId)| + |timestamp|
    ensures name[..17] == "downloads/export_"
    ensures name[|name| - 4..] == ".pdf"
    ensures name[17..17 + |reportId|] == reportId
    ensures name[17 + |reportId|] == '_'
    ensures name[18 + |reportId|..18 + |reportId| + |IdPart(exportId)|] == IdPart(exportId)
    ensures name[18 + |reportId| + |IdPart(exportId)|] == '_'
    ensures name[19 + |reportId| + |IdPart(exportId)|..|name| - 4] == timestamp
  {
    var name := "downloads/export_" + reportId + "_" + IdPart(exportId) + "_" + timestamp + ".pdf";
    assert name[..17] == "downloads/export_";
    assert name[17..17 + |reportId|] == reportId;
    assert name[18 + |reportId|..18 + |reportId| + |IdPart(exportId)|] == IdPart(exportId);
    assert name[|name| - 4..] == ".pdf";
    name
  }
}
