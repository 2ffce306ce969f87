# Power BI report export client — lifecycle model

This project models the lifecycle of one report export job as the export
client `export_report.py` drives it: the job is submitted with a POST to the
report's `ExportTo` endpoint, its status is polled with GETs until the service
reports `Succeeded` or `Failed`, and, when the gate allows, the produced file
is downloaded as a stream and written chunk by chunk to
`downloads/export_<report>_<id[:20]>_<timestamp>.pdf`.

The network is replaced by scripted replies, one per request: a reply either
raised (`Fault`: connection error, timeout, unusable URL) or carries a status
code and a body that may fail to parse as a JSON object. Only the body fields
that steer the client (`id`, `status`, `resourceLocation`) are kept. A job's
observable behaviour is the list of requests it sends and the file it leaves.

Modules, one per concern of the source file:

- `Wrappers` (`wrappers.dfy`): the optional value.
- `Http` (`http.dfy`): responses, replies, streams and requests as data; Python truthiness of an optional string.
- `Paths` (`paths.dfy`): the export context, the `groups/<id>/` segment, the submit and status URLs, the output file name.
- `Polling` (`polling.dfy`): the poll loop as a method, the specification it meets, and its properties.
- `Download` (`download.dfy`): the skip gate, the chunk copy loop as a method, and what the file holds.
- `Export` (`export.dfy`): `startExport` and `fullExport`, and the properties of the whole job.

The model follows the code as written: the extension is always `.pdf`
whatever `format` the export request names (export_report.py:192); a 429
reply gets no retry (a non-202 submit yields no id, a poll code outside
200/202 ends polling with `Failed`); all jobs share one `ExportContext`
(export_report.py:308-310).

## Model

| member | source | states |
|---|---|---|
| `Paths.GroupPath` | export_report.py:73 | the segment is empty exactly when the workspace id is None or empty, and otherwise reads back as that workspace id |
| `Paths.ReportBaseSegments` | export_report.py:110 | the common URL prefix is the host followed by `v1.0/myorg/[groups/<w>/]reports/<report>` joined with single slashes |
| `Paths.SubmitUrlSegments` | export_report.py:110 | the submit URL is the report resource path followed by the `ExportTo` segment |
| `Paths.StatusUrlSegments` | export_report.py:141 | the status URL is the report resource path followed by `exports/<exportId>` |
| `Paths.StatusUrlRoundTrip` | export_report.py:141 | the export id can be read back from the status URL built for it |
| `Paths.StatusUrlInjective` | export_report.py:141 | two different export ids are polled at different URLs |
| `Paths.SubmitUrlIsNoStatusUrl` | export_report.py:110 | the submit URL of a report is not a status URL of that report |
| `Paths.IdPart` | export_report.py:192 | the id part is a prefix of the export id of at most 20 characters, the whole id when it is shorter, exactly 20 characters otherwise |
| `Paths.Filename` | export_report.py:192 | the name starts with `downloads/export_`, then holds the report id, `_`, the id part, `_` and the timestamp at fixed places, and ends with `.pdf` |
| `Polling.PollFrom` | export_report.py:145-165 | a finished poll returns only `Succeeded` or `Failed`, after consuming at least one and at most all replies; `Succeeded` always comes with the last consumed response, code 200 or 202, whose parsed body says `Succeeded` |
| `Polling.PollExportStatus` | export_report.py:130-165 | the loop returns exactly the outcome of the polling specification and sends one GET of the status URL per consumed reply |
| `Polling.PollFromShape` | export_report.py:145-160 | polling runs out of script iff every reply is Running (200/202, JSON body, non-terminal status); otherwise it stops at the first reply that is not Running, treated as one step of the loop |
| `Polling.PollExactlyWhileRunning` | export_report.py:145-156 | another status request is sent exactly while the previous reply was Running |
| `Polling.PollStopsOnBadCode` | export_report.py:151-160 | a code outside {200, 202} after Running replies ends polling at once with `Failed` and that response; no later reply is consumed |
| `Polling.PollStopsOnFault` | export_report.py:161-163 | a request that raises after Running replies ends polling with `Failed` and the response held from the previous reply |
| `Polling.PollFromIgnoresRest` | export_report.py:157-163 | once polling has stopped from a given point, replies scripted after that point do not change the outcome |
| `Polling.PollIgnoresRest` | export_report.py:145-165 | a finished poll gives the same outcome whatever replies would have followed |
| `Download.BeforeFirstEmpty` | export_report.py:195-197 | the copied chunks are a prefix of the stream, all non-empty, and either the whole stream or ended by an empty chunk |
| `Download.BeforeFirstEmptyAt` | export_report.py:195-197 | a stopping point with only non-empty chunks before it and an empty chunk or the stream's end at it determines the copied chunks |
| `Download.CopyChunks` | export_report.py:194-198 | the file holds exactly the concatenation, in order, of the chunks before the first empty chunk |
| `Download.ConcatAppend` | export_report.py:195-198 | appending more chunks appends their bytes after the bytes already written |
| `Download.ConcatLength` | export_report.py:202 | the number of bytes concatenated is the sum of the chunks' lengths |
| `Download.ChunkInPlace` | export_report.py:195-198 | each chunk's bytes sit in the file right after the bytes of the chunks before it |
| `Download.WrittenSize` | export_report.py:202 | the reported file size is the sum of the lengths of the chunks before the first empty chunk |
| `Download.WrittenStopsAtEmpty` | export_report.py:196-197 | nothing streamed after the first empty chunk reaches the file |
| `Download.DownloadEffectOf` | export_report.py:168-208 | skip mode sends nothing and writes nothing; otherwise one GET of the resource location is sent when there is one, and a file named by `Filename` holding the copied chunks exists exactly when that GET answered 200 |
| `Download.DownloadFile` | export_report.py:168-208 | the method has exactly the effect of the download specification |
| `Export.StartExport` | export_report.py:117-127 | an export id is returned only for a 202 response with a JSON body, and then it is the body's `id`; any other code, an unparsable body or a raised request yields None |
| `Export.FullExport` | export_report.py:211-222 | the method sends exactly the requests and writes exactly the file of the job specification |
| `Export.NoExportIdNoPoll` | export_report.py:218-219 | without a truthy export id the job sends only the submit request: no poll, no download, no file |
| `Export.RequestsInOrder` | export_report.py:218-220 | with an export id the job sends the submit POST, then one status GET per consumed poll reply, then at most one more request |
| `Export.DownloadOnlyThroughGate` | export_report.py:219-222 | a download request or a file happens only with an export id, a `Succeeded` status carried by a 200 response, and skip mode off |
| `Export.SucceededOn202DoesNotDownload` | export_report.py:221 | `Succeeded` carried by a 202 response sends no download request and writes no file |
| `Export.SkipModeNeverDownloads` | export_report.py:178-180 | in skip mode no file is written and every request is the submit POST or a status GET for the job's own export id |
| `Export.GateOpenDownloads` | export_report.py:221-222 | with the gate open, a location given and a 200 stream, the last request is the download GET and the file is saved under the export's name with the copied chunks |
| `Export.ScenarioSucceeded` | export_report.py:211-222 | accepted submit, Running then Succeeded/200, a two-byte stream: four requests in order and a two-byte file |
| `Export.ScenarioRejected` | export_report.py:117-124 | a submit answered 400 ends the job after that single request |

## Left out

- The HTTP layer (`urllib3.PoolManager`, `request`, `release_conn`, the response context manager, `http.clear`): replaced by scripted replies; connection release is not modelled.
- JSON encoding of the export request and decoding of bodies: a body is the parsed fields or "does not parse"; the request headers, access token and export request body are not modelled.
- `Polling.PollExportStatus`: the source loop is unbounded; over a finite script the outcome `Exhausted` means the client would go on polling, and no termination of the real loop is claimed.
- `percentComplete` (export_report.py:154): read only for the trace, so it is dropped from the body.
- `time.sleep(1)` between polls, the `strftime` timestamps (the timestamp is an opaque string parameter), the download duration, and `trace`, which only prints.
- File system calls (`os.makedirs`, `open`, `os.path.getsize`): the file is its name and its bytes; the 8192-byte chunk size of the stream is not modelled.
- A stream that raises part-way: the file then holds the chunks before the fault, which is the same as the stream ending there.
- A download reply with a code other than 200 only traces; the model records that no file is written.
- The thread pool, thread ids and the shared context in `main`; credential lookup, argument parsing, the cluster-to-host table and reading the request file.
- `Download.DownloadFile`: requires that the status response's body parses, because `response.json()` there is outside the `try`; its only caller meets this since a `Succeeded` status was read from that body.
