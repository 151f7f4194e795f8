/**
 * The admin status-change table (`changeStatus`, `processStatusChange` and
 * the six handlers) as functions from the working copy of a job and the
 * request to a `Step`: what the handler returns, the working copy it leaves,
 * whether it called `save()`, and what it asked to be broadcast. The
 * repository's handler methods are proved against these functions.
 *
 * Dispatch is keyed on the REQUESTED status, while several handlers test the
 * requested status against other values; the lemmas below show which of
 * their branches dispatch can reach.
 */
module StatusTable {
  import opened Wrappers
  import opened PhpValues
  import opened Domain

  /** The request fields the handlers read; `sessionTime` is sent under the key `sesion_time`. */
  datatype StatusRequest = StatusRequest(status: string, adminComments: Option<string>, sessionTime: Option<string>)

  datatype Step = Step(ok: bool, job: Job, saved: bool, notices: seq<Notice>)

  /** The handler returned `false` and did not save. */
  function Refused(job: Job): (s: Step)
    ensures !s.ok && !s.saved && s.notices == []
  {
    Step(false, job, false, [])
  }

  /** A handler that saved and returned `true`. */
  function Saved(job: Job): (s: Step)
    ensures s.ok && s.saved && s.notices == []
  {
    Step(true, job, true, [])
  }

  /** `handlePendingStatus`: resets the creation time and mail counters, saves, and broadcasts to all suitable translators. */
  function HandlePendingStatus(job: Job, now: int): (s: Step)
    ensures s.ok && s.saved && s.notices == [SuitableJob(job.id, Wildcard)]
    ensures s.job == job.(createdAt := now, emailSent := 0, emailSentToVirpal := 0)
  {
    Step(true, job.(createdAt := now, emailSent := 0, emailSentToVirpal := 0), true, [SuitableJob(job.id, Wildcard)])
  }

  /** `changeTimedoutStatus`. */
  function TimedoutHandler(job: Job, req: StatusRequest, changedTranslator: bool, now: int): Step {
    var working := job.(status := ParseStatus(req.status));
    if req.status == "pending" then HandlePendingStatus(working, now)
    else if changedTranslator then Saved(working)
    else Refused(working)
  }

  /** `changeCompletedStatus`. */
  function CompletedHandler(job: Job, req: StatusRequest): Step {
    var working := job.(status := ParseStatus(req.status));
    if req.status == "timedout" then
      if IsEmpty(req.adminComments) then Refused(working)
      else Saved(working.(adminComments := req.adminComments))
    else Saved(working)
  }

  /** `handleCompletedJob`: refuses without a session time, else stamps the end and the session time. */
  function HandleCompletedJob(job: Job, req: StatusRequest, now: int): Step {
    if IsEmpty(req.sessionTime) then Refused(job)
    else Saved(job.(endAt := Some(now), sessionTime := req.sessionTime))
  }

  /** `changeStartedStatus`. */
  function StartedHandler(job: Job, req: StatusRequest, now: int): Step {
    var working := job.(status := ParseStatus(req.status));
    if IsEmpty(req.adminComments) then Refused(working)
    else
      var commented := working.(adminComments := req.adminComments);
      if req.status == "completed" then HandleCompletedJob(commented, req, now)
      else Saved(commented)
  }

  /**
   * `changePendingStatus`. The branch through `handleAssignedJob` saves;
   * the one through `handleCancelledJob` only mails the customer and
   * returns `true` WITHOUT saving.
   */
  function PendingHandler(job: Job, req: StatusRequest, changedTranslator: bool): Step {
    var working := job.(status := ParseStatus(req.status));
    if IsEmpty(req.adminComments) && req.status == "timedout" then Refused(working)
    else
      var commented := working.(adminComments := req.adminComments);
      if req.status == "assigned" && changedTranslator then Saved(commented)
      else Step(true, commented, false, [])
  }

  /** `changeWithdrawafter24Status`: acts only on a request for `timedout` (compared loosely with `''`). */
  function Withdrawafter24Handler(job: Job, req: StatusRequest): Step {
    if req.status == "timedout" then
      var working := job.(status := Timedout);
      if LooseEqualsEmpty(req.adminComments) then Refused(working)
      else Saved(working.(adminComments := req.adminComments))
    else Refused(job)
  }

  /** `changeAssignedStatus`: acts only on a request for a withdrawal or `timedout`. */
  function AssignedHandler(job: Job, req: StatusRequest): Step {
    if req.status in {"withdrawbefore24", "withdrawafter24", "timedout"} then
      var working := job.(status := ParseStatus(req.status));
      if LooseEqualsEmpty(req.adminComments) && req.status == "timedout" then Refused(working)
      else Saved(working.(adminComments := req.adminComments))
    else Refused(job)
  }

  /** `processStatusChange`: the handler is looked up by the requested status. */
  function ProcessStatusChange(job: Job, req: StatusRequest, changedTranslator: bool, now: int): Step {
    match ParseStatus(req.status)
    case Timedout => TimedoutHandler(job, req, changedTranslator, now)
    case Completed => CompletedHandler(job, req)
    case Started => StartedHandler(job, req, now)
    case Pending => PendingHandler(job, req, changedTranslator)
    case WithdrawAfter24 => Withdrawafter24Handler(job, req)
    case Assigned => AssignedHandler(job, req)
    case _ => Refused(job)
  }

  /** What `changeStatus` returns: whether the status changed and, if so, the old and new status strings. */
  datatype StatusChange = StatusChange(statusChanged: bool, log: Option<(string, string)>)

  /** `changeStatus`. */
  function ChangeStatus(job: Job, req: StatusRequest, changedTranslator: bool, now: int): (StatusChange, Step) {
    if StatusName(job.status) != req.status then
      var step := ProcessStatusChange(job, req, changedTranslator, now);
      if step.ok then (StatusChange(true, Some((StatusName(job.status), req.status))), step)
      else (StatusChange(false, None), step)
    else (StatusChange(false, None), Refused(job))
  }

  /** Every handler, on every request, returns `false` only before calling `save()`. */
  lemma RefusalNeverSaves(job: Job, req: StatusRequest, changedTranslator: bool, now: int)
    ensures !TimedoutHandler(job, req, changedTranslator, now).ok ==> !TimedoutHandler(job, req, changedTranslator, now).saved
    ensures !CompletedHandler(job, req).ok ==> !CompletedHandler(job, req).saved
    ensures !StartedHandler(job, req, now).ok ==> !StartedHandler(job, req, now).saved
    ensures !PendingHandler(job, req, changedTranslator).ok ==> !PendingHandler(job, req, changedTranslator).saved
    ensures !Withdrawafter24Handler(job, req).ok ==> !Withdrawafter24Handler(job, req).saved
    ensures !AssignedHandler(job, req).ok ==> !AssignedHandler(job, req).saved
    ensures var (change, step) := ChangeStatus(job, req, changedTranslator, now);
            !change.statusChanged ==> !step.saved
  {
  }

  /** A request for the status the job already has changes nothing. */
  lemma SameStatusUnchanged(job: Job, req: StatusRequest, changedTranslator: bool, now: int)
    requires StatusName(job.status) == req.status
    ensures var (change, step) := ChangeStatus(job, req, changedTranslator, now);
            !change.statusChanged && !step.saved && step.job == job && step.notices == []
  {
  }

  /** A requested status outside the six handler keys is refused without touching the working copy. */
  lemma UnknownKeyRefused(job: Job, req: StatusRequest, changedTranslator: bool, now: int)
    requires req.status !in {"timedout", "completed", "started", "pending", "withdrawafter24", "assigned"}
    ensures var (change, step) := ChangeStatus(job, req, changedTranslator, now);
            !change.statusChanged && !step.saved && step.job == job
  {
  }

  /** A request for `assigned` or `withdrawafter24` is always refused: their handlers wait for other requested values. */
  lemma AssignedAndWithdrawAfter24Refused(job: Job, req: StatusRequest, changedTranslator: bool, now: int)
    requires req.status in {"assigned", "withdrawafter24"}
    ensures var (change, step) := ChangeStatus(job, req, changedTranslator, now);
            !change.statusChanged && !step.saved && step.job == job && step.notices == []
  {
  }

  /**
   * What each reachable key does, once the status differs: `timedout`
   * succeeds iff the translator changed; `completed` always succeeds and
   * saves only the status (no session time is demanded); `started` needs an
   * admin comment; `pending` reports success but never saves. No dispatched
   * request reaches `handlePendingStatus`, so nothing is broadcast.
   */
  lemma DispatchByKey(job: Job, req: StatusRequest, changedTranslator: bool, now: int)
    requires StatusName(job.status) != req.status
    ensures var (change, step) := ChangeStatus(job, req, changedTranslator, now);
            && step.notices == []
            && step.job.id == job.id
            && (change.statusChanged <==> step.ok)
            && (req.status == "timedout" ==> step.ok == changedTranslator && step.saved == changedTranslator && step.job.status == Timedout)
            && (req.status == "completed" ==> step.ok && step.saved && step.job == job.(status := Completed))
            && (req.status == "started" ==> step.ok == !IsEmpty(req.adminComments) && step.saved == step.ok)
            && (req.status == "pending" ==> step.ok && !step.saved && step.job == job.(status := Pending, adminComments := req.adminComments))
  {
  }

  /** When the change is reported, the log pairs the old stored status with the requested one. */
  lemma ChangeLogged(job: Job, req: StatusRequest, changedTranslator: bool, now: int)
    ensures var (change, step) := ChangeStatus(job, req, changedTranslator, now);
            change.statusChanged <==> change.log.Some?
    ensures var (change, step) := ChangeStatus(job, req, changedTranslator, now);
            change.statusChanged ==> change.log == Some((StatusName(job.status), req.status)) && StatusName(step.job.status) == req.status
  {
  }
}
