/**
 * Polling an export job until the service reports a terminal status.
 *
 * The service is a finite script of replies, consumed one per status request.
 * The source's loop has no bound; when the script ends before a terminal
 * status is seen the outcome is Exhausted, which only says that the client
 * would go on polling.
 */
module Polling {
  import opened Wrappers
  import opened Http
  import opened Paths

  /** The loop's exit test: the last parsed body status is Succeeded or Failed. */
  predicate IsTerminal(status: Option<string>)
  {
    status == Some("Succeeded") || status == Some("Failed")
  }

  /** A reply after which the client polls again: 200 or 202, a JSON body, a non-terminal status. */
  predicate Running(reply: Reply)
  {
    && reply.Got?
    && (reply.response.code == 200 || reply.response.code == 202)
    && reply.response.body.Some?
    && !IsTerminal(reply.response.body.value.status)
  }

  /**
   * The result of polling: the status returned, the response returned beside
   * it (None when no response was ever received) and how many replies were
   * consumed; or Exhausted when the script ran out first.
   */
  datatype PollOutcome = Done(status: string, last: Option<Response>, used: nat) | Exhausted

  /** How the source treats one status reply, given the response held so far. */
  datatype Step = Continue(response: Response) | Stop(status: string, last: Option<Response>)

  function PollStep(last: Option<Response>, reply: Reply): Step
  {
    match reply
    case Fault => Stop("Failed", last)
    case Got(r) =>
      if r.code == 200 || r.code == 202 then
        match r.body
        case None => Stop("Failed", Some(r))
        case Some(b) => if IsTerminal(b.status) then Stop(b.status.value, Some(r)) else Continue(r)
      else Stop("Failed", Some(r))
  }

  /** The response held before reply `i` is handled. */
  function HeldBefore(script: seq<Reply>, i: nat, start: nat, last: Option<Response>): Option<Response>
    requires start <= i <= |script|
  {
    if i == start then last
    else if script[i - 1].Got? then Some(script[i - 1].response)
    else last
  }

  /** Polling from reply `i` on, holding response `last`. */
  function PollFrom(script: seq<Reply>, i: nat, last: Option<Response>): (o: PollOutcome)
    requires i <= |script|
    decreases |script| - i
    ensures o.Done? ==> i < o.used <= |script|
    ensures o.Done? ==> o.status == "Succeeded" || o.status == "Failed"
    ensures o.Done? && o.status == "Succeeded" ==>
      && script[o.used - 1].Got?
      && o.last == Some(script[o.used - 1].response)
      && (o.last.value.code == 200 || o.last.value.code == 202)
      && o.last.value.body.Some?
      && o.last.value.body.value.status == Some("Succeeded")
  {
    if i == |script| then Exhausted
    else match PollStep(last, script[i])
      case Stop(s, r) => Done(s, r, i + 1)
      case Continue(r) => PollFrom(script, i + 1, Some(r))
  }

  /** `pollExportStatus` on a script of replies, before any response is held. */
  function Poll(script: seq<Reply>): PollOutcome
  {
    PollFrom(script, 0, None)
  }

  /** How many status requests polling issues against this script. */
  function Used(o: PollOutcome, script: seq<Reply>): nat
  {
    if o.Done? then o.used else |script|
  }

  /**
   * The loop of `pollExportStatus`: one GET of the status URL per reply, until
   * a terminal status, a bad status code or a raised request ends it.
   */
  method PollExportStatus(ctx: ExportContext, exportId: string, script: seq<Reply>)
    returns (outcome: PollOutcome, requests: seq<Request>)
    ensures outcome == Poll(script)
    ensures requests == Repeat(Request(Get, StatusUrl(ctx, exportId)), Used(outcome, script))
  {
    var url := StatusUrl(ctx, exportId);
    var status: Option<string> := None;
    var response: Option<Response> := None;
    var i := 0;
    requests := [];
    while status != Some("Succeeded") && status != Some("Failed")
      invariant i <= |script|
      invariant requests == Repeat(Request(Get, url), i)
      invariant !IsTerminal(status) ==> Poll(script) == PollFrom(script, i, response)
      invariant IsTerminal(status) ==> Poll(script) == Done(status.value, response, i)
      decreases |script| - i
    {
      if i == |script| {
        return Exhausted, requests;
      }
      requests := requests + [Request(Get, url)];
      match script[i]
      case Fault =>
        return Done("Failed", response, i + 1), requests;
      case Got(r) =>
        response := Some(r);
        if r.code == 200 || r.code == 202 {
          match r.body
          case None =>
            return Done("Failed", response, i + 1), requests;
          case Some(b) =>
            status := b.status;
        } else {
          return Done("Failed", response, i + 1), requests;
        }
      i := i + 1;
    }
    outcome := Done(status.value, response, i);
  }

  /**
   * Polling goes on exactly while replies are Running: the outcome is
   * Exhausted iff every reply from `i` on is Running, and a Done outcome
   * stops at the first reply that is not, handled as PollStep handles it.
   */
  lemma {:induction false} PollFromShape(script: seq<Reply>, i: nat, last: Option<Response>)
    requires i <= |script|
    decreases |script| - i
    ensures PollFrom(script, i, last).Exhausted? <==> forall j :: i <= j < |script| ==> Running(script[j])
    ensures PollFrom(script, i, last).Done? ==>
      var o := PollFrom(script, i, last);
      && (forall j :: i <= j < o.used - 1 ==> Running(script[j]))
      && !Running(script[o.used - 1])
      && PollStep(HeldBefore(script, o.used - 1, i, last), script[o.used - 1]) == Stop(o.status, o.last)
  {
    if i < |script| {
      match PollStep(last, script[i])
      case Stop(s, r) =>
        assert !Running(script[i]);
      case Continue(r) =>
        assert Running(script[i]);
        PollFromShape(script, i + 1, Some(r));
        var o := PollFrom(script, i, last);
        if o.Done? {
          assert HeldBefore(script, o.used - 1, i + 1, Some(r)) == HeldBefore(script, o.used - 1, i, last);
        }
    }
  }

  /**
   * The poll loop issues another request exactly while the last reply was
   * Running; when it stops, the reply that stopped it is the last one consumed.
   */
  lemma PollExactlyWhileRunning(script: seq<Reply>)
    ensures Poll(script).Exhausted? <==> forall j :: 0 <= j < |script| ==> Running(script[j])
    ensures Poll(script).Done? ==>
      && (forall j :: 0 <= j < Poll(script).used - 1 ==> Running(script[j]))
      && !Running(script[Poll(script).used - 1])
  {
    PollFromShape(script, 0, None);
  }

  /**
   * A status code outside {200, 202}, after only Running replies, ends polling
   * at once with Failed and that response; no later reply is consumed.
   */
  lemma PollStopsOnBadCode(script: seq<Reply>, k: nat)
    requires k < |script|
    requires forall j :: 0 <= j < k ==> Running(script[j])
    requires script[k].Got? && script[k].response.code != 200 && script[k].response.code != 202
    ensures Poll(script) == Done("Failed", Some(script[k].response), k + 1)
  {
    PollFromShape(script, 0, None);
    assert !Running(script[k]);
  }

  /** A reply that raised, after only Running replies, also ends polling with Failed. */
  lemma PollStopsOnFault(script: seq<Reply>, k: nat)
    requires k < |script|
    requires forall j :: 0 <= j < k ==> Running(script[j])
    requires script[k].Fault?
    ensures Poll(script) == Done("Failed", HeldBefore(script, k, 0, None), k + 1)
  {
    PollFromShape(script, 0, None);
    assert !Running(script[k]);
  }

  /** Once polling has stopped, replies scripted after that point are never read. */
  lemma {:induction false} PollFromIgnoresRest(script: seq<Reply>, more: seq<Reply>, i: nat, last: Option<Response>)
    requires i <= |script|
    requires PollFrom(script, i, last).Done?
    decreases |script| - i
    ensures PollFrom(script + more, i, last) == PollFrom(script, i, last)
  {
    assert (script + more)[i] == script[i];
    match PollStep(last, script[i])
    case Stop(s, r) =>
    case Continue(r) =>
      PollFromIgnoresRest(script, more, i + 1, Some(r));
  }

  lemma PollIgnoresRest(script: seq<Reply>, more: seq<Reply>)
    requires Poll(script).Done?
    ensures Poll(script + more) == Poll(script)
  {
    PollFromIgnoresRest(script, more, 0, None);
  }
}
