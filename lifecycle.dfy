/** The response record of `GeminiService` (services.py:215-257) as a value:
    how one row of `gemini_responses` (database.py:58-68) is created and
    overwritten. Time is a plain integer supplied by the caller. */
module Lifecycle {
  import opened Wrappers

  const Pending := "pending"
  const Completed := "completed"
  const Error := "error"

  /** A row of `gemini_responses`. `status` is free text: the source stores
      whatever string it is given. */
  datatype Response = Response(
    id: int,
    promptId: int,
    content: string,
    status: string,
    createdAt: int,
    completedAt: Option<int>)

  /** A completed record carries its completion time. Every update keeps this. */
  predicate Stamped(r: Response) {
    r.status == Completed ==> r.completedAt.Some?
  }

  /** The record `create_gemini_response` inserts (services.py:228-232):
      pending, empty text, no completion time. */
  function NewResponse(id: int, promptId: int, now: int): (r: Response)
    ensures r.id == id && r.promptId == promptId && r.createdAt == now
    ensures r.status == Pending && r.content == "" && r.completedAt == None
    ensures Stamped(r)
  {
    Response(id, promptId, "", Pending, now, None)
  }

  /** `update_gemini_response` on an existing record (services.py:250-253):
      text and status are overwritten with the given ones; the completion time
      becomes `now` only for status "completed" and is otherwise left as it was,
      so an "error" update does not stamp it. Identity, prompt and creation
      time never change. */
  function Updated(r: Response, content: string, status: string, now: int): (u: Response)
    ensures u.id == r.id && u.promptId == r.promptId && u.createdAt == r.createdAt
    ensures u.content == content && u.status == status
    ensures status == Completed ==> u.completedAt == Some(now)
    ensures status != Completed ==> u.completedAt == r.completedAt
    ensures Stamped(u)
  {
    var u := r.(content := content, status := status);
    if status == Completed then u.(completedAt := Some(now)) else u
  }

  /** One call of `update_gemini_response`: text, status and the clock reading. */
  datatype Update = Update(content: string, status: string, at: int)

  /** A record after a run of updates, applied first to last. */
  function ApplyAll(r: Response, us: seq<Update>): Response
    decreases |us|
  {
    if us == [] then r else ApplyAll(Updated(r, us[0].content, us[0].status, us[0].at), us[1..])
  }

  /** The clock reading of the last "completed" update of a run, if any. */
  function LastCompletion(us: seq<Update>): Option<int>
  {
    if us == [] then None
    else if us[|us| - 1].status == Completed then Some(us[|us| - 1].at)
    else LastCompletion(us[..|us| - 1])
  }

  /** Applying one more update is applying it to the record the run produced. */
  lemma {:induction false} ApplyAllSnoc(r: Response, us: seq<Update>, u: Update)
    ensures ApplyAll(r, us + [u]) == Updated(ApplyAll(r, us), u.content, u.status, u.at)
    decreases |us|
  {
    if us != [] {
      assert (us + [u])[1..] == us[1..] + [u];
      ApplyAllSnoc(Updated(r, us[0].content, us[0].status, us[0].at), us[1..], u);
    }
  }

  /** Repeated updates overwrite: after a non-empty run the text and status are
      those of the last update, and the completion time is the clock reading of
      the last "completed" update, or the record's original one if the run had
      none. Identity, prompt and creation time are untouched. */
  lemma {:induction false} ApplyAllOverwrites(r: Response, us: seq<Update>)
    requires us != []
    ensures var f := ApplyAll(r, us);
      && f.id == r.id && f.promptId == r.promptId && f.createdAt == r.createdAt
      && f.content == us[|us| - 1].content && f.status == us[|us| - 1].status
      && f.completedAt == (if LastCompletion(us).Some? then LastCompletion(us) else r.completedAt)
  {
    var n := |us| - 1;
    assert us == us[..n] + [us[n]];
    ApplyAllSnoc(r, us[..n], us[n]);
    if n > 0 {
      ApplyAllOverwrites(r, us[..n]);
    }
  }

  /** The shape records take when only the background request writes them:
      pending without a completion time, completed with one, or error. */
  predicate DriverShaped(r: Response) {
    || (r.status == Pending && r.completedAt.None?)
    || (r.status == Completed && r.completedAt.Some?)
    || r.status == Error
  }

  /** A new record has that shape, and "completed" and "error" updates keep it. */
  lemma DriverUpdatesKeepShape(r: Response, content: string, status: string, now: int)
    requires DriverShaped(r) && (status == Completed || status == Error)
    ensures DriverShaped(Updated(r, content, status, now))
  {
  }

  /** The update itself does not keep it: status "pending" written over a
      completed record leaves a pending record with a completion time. */
  lemma PendingOverCompletedKeepsStamp(r: Response, content: string, now: int)
    requires r.status == Completed && r.completedAt.Some?
    ensures var u := Updated(r, content, Pending, now);
      u.status == Pending && u.completedAt == r.completedAt && !DriverShaped(u)
  {
  }
}
