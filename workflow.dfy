/** `process_gemini_request` (main.py:236-255), the background job that
    obtains a response record for a prompt, calls the external model and
    writes the outcome back. The model call is not part of this model: its
    result arrives as an `Outcome`, and the two clock readings (record
    creation, outcome written) are parameters. */
module Workflow {
  import opened Wrappers
  import opened Lifecycle
  import opened Store

  /** What the external call produced: its text, or the message of the
      exception it raised (`str(e)`, main.py:250-255). */
  datatype Outcome = Generated(text: string) | Failed(message: string)

  /** The record after the background job's single write for `outcome`: generated text
      completes it and stamps `at`; a failure marks it "error" with the
      message and leaves the completion time alone. A record in the shape the
      job produces keeps that shape. */
  function Settled(r: Response, outcome: Outcome, at: int): (u: Response)
    ensures u.id == r.id && u.promptId == r.promptId && u.createdAt == r.createdAt
    ensures outcome.Generated? ==>
      u.status == Completed && u.content == outcome.text && u.completedAt == Some(at)
    ensures outcome.Failed? ==>
      u.status == Error && u.content == outcome.message && u.completedAt == r.completedAt
    ensures Stamped(u)
    ensures DriverShaped(r) ==> DriverShaped(u)
  {
    match outcome
    case Generated(text) => Updated(r, text, Completed, at)
    case Failed(message) => Updated(r, message, Error, at)
  }

  /** A first request never leaves its record pending: it ends "completed"
      exactly when the call produced text, and "error" otherwise. */
  lemma FirstRequestSettles(id: int, pid: int, now: int, outcome: Outcome, at: int)
    ensures var u := Settled(NewResponse(id, pid, now), outcome, at);
      && u.status != Pending
      && (u.status == Completed <==> outcome.Generated?)
      && (u.completedAt.Some? <==> outcome.Generated?)
  {
  }

  /** A request sent again after a success reuses the completed record; when
      that second call fails, the record says "error" yet keeps the first
      success's completion time, since the "error" write never stamps. */
  lemma FailedResubmissionKeepsStamp(id: int, pid: int, now: int, text: string, at: int,
                                     message: string, later: int)
    ensures var u := Settled(Settled(NewResponse(id, pid, now), Generated(text), at), Failed(message), later);
      u.status == Error && u.content == message && u.completedAt == Some(at)
  {
  }

  /** The background job for prompt `pid`: the prompt's response record (found or
      newly created at `now`) ends up settled by `outcome` at `done`; no
      other row of any table changes. When every record had the shape the
      job produces before, every record has it after. */
  method ProcessRequest(db: Db, pid: int, outcome: Outcome, now: int, done: int) returns (rid: int)
    requires db.Valid()
    modifies db
    ensures db.Valid()
    ensures rid in db.responses && db.responses[rid].promptId == pid
    ensures HasResponse(old(db.responses), pid) ==>
      && rid in old(db.responses)
      && db.Snapshot() == old(db.Snapshot()).(
           responses := old(db.responses)[rid := Settled(old(db.responses)[rid], outcome, done)])
    ensures !HasResponse(old(db.responses), pid) ==>
      && rid !in old(db.responses)
      && db.Snapshot() == old(db.Snapshot()).(
           responses := old(db.responses)[rid := Settled(NewResponse(rid, pid, now), outcome, done)])
    ensures (forall id :: id in old(db.responses) ==> DriverShaped(old(db.responses)[id])) ==>
      forall id :: id in db.responses ==> DriverShaped(db.responses[id])
  {
    var record := db.CreateResponse(pid, now);
    rid := record.id;
    var settled: Option<Response>;
    match outcome {
      case Generated(text) =>
        settled := db.UpdateResponse(rid, text, Completed, done);
      case Failed(message) =>
        settled := db.UpdateResponse(rid, message, Error, done);
    }
  }
}
