/**
 * `BookingRepository` as a class over the tables it writes: the jobs by id,
 * the translator-job link rows in table order, the next id the jobs table
 * hands out, and the notices queued for the mail and push transports.
 * Every operation loads a job, changes a working copy field by field and
 * commits it with `Save`, as the repository does with `save()`; an error
 * that escapes after some writes returns `Aborted` and keeps those writes.
 */
module Booking {
  import opened Wrappers
  import opened PhpValues
  import opened Domain
  import opened Classify
  import opened Formatting
  import opened Dispatch
  import opened Assignments
  import opened StatusTable
  import opened Lifecycle

  datatype Response =
    | Success
    | Fail(message: string)
    | Messages(lines: seq<string>)  // a plain array of strings
    | Silent                        // the operation returns nothing
    | NotFound                      // `findOrFail` found no job
    | Aborted                       // an error escaped after the writes made so far

  const AlreadyBookedMessage := "Du har redan en bokning den tiden! Bokningen är inte accepterad."
  const NotAcceptedMessage := "Bokningen kunde inte accepteras."
  const CancelTooLateMessage := "Du kan inte avboka en bokning som sker inom 24 timmar genom DigitalTolk. Vänligen ring på +46 73 75 86 865 och gör din avbokning over telefon. Tack!"
  const JobNotFoundMessage := "Job not found!"
  const ReopenedMessage := "Tolk cancelled!"

  /** `acceptJobWithId`'s refusal when the translator is booked at that time. */
  function BookedAtMessage(dueText: string): (m: string)
    ensures "Du har redan en bokning den tiden " <= m && EndsWith(m, ". Du har inte fått denna tolkning")
  {
    var tail := ". Du har inte fått denna tolkning";
    var m := "Du har redan en bokning den tiden " + dueText + tail;
    assert m[|m| - |tail|..] == tail;
    m
  }

  /** `acceptJobWithId`'s refusal when another translator was quicker. */
  function TakenMessage(language: string, duration: int, dueText: string): (m: string)
    ensures "Denna " <= m && EndsWith(m, " har redan accepterats av annan tolk. Du har inte fått denna tolkning")
  {
    var tail := " har redan accepterats av annan tolk. Du har inte fått denna tolkning";
    var m := "Denna " + language + "tolkning " + IntToString(duration) + "min " + dueText + tail;
    assert m[|m| - |tail|..] == tail;
    m
  }

  /** A push to one user, queued only when the user accepts pushes, delayed at night when the user asked for it. */
  function PushFor(kind: PushKind, userId: int, jobId: int, meta: UserMeta, night: bool): (ns: seq<Notice>)
    ensures ns != [] <==> IsNeedToSendPush(meta, userId)
    ensures forall n :: n in ns ==> n == UserPush(kind, userId, jobId, IsNeedToDelayPush(night, meta, userId))
  {
    if IsNeedToSendPush(meta, userId) then [UserPush(kind, userId, jobId, IsNeedToDelayPush(night, meta, userId))] else []
  }

  /** The jobs table after a handler step: the working copy is stored only when the handler saved it. */
  function Committed(jobs: map<int, Job>, step: Step): (r: map<int, Job>)
    ensures step.saved ==> r == jobs[step.job.id := step.job]
    ensures !step.saved ==> r == jobs
  {
    if step.saved then jobs[step.job.id := step.job] else jobs
  }

  /** The fields `updateJob` reads from the request. */
  datatype UpdateRequest = UpdateRequest(
    due: int,
    fromLanguageId: int,
    adminComments: Option<string>,
    reference: Option<string>,
    translator: Option<int>,
    translatorEmail: Option<string>)

  /** `sendNotifications`: one notice per reported change, in the order date, translator, language. */
  function ChangeNotices(jobId: int, dateChanged: bool, added: Option<Assignment>, langChanged: bool, languageId: int): (ns: seq<Notice>)
    ensures |ns| == Ind(dateChanged) + Ind(added.Some?) + Ind(langChanged)
    ensures DateChanged(jobId) in ns <==> dateChanged
    ensures (exists n :: n in ns && n.TranslatorChanged?) <==> added.Some?
    ensures LanguageChanged(jobId, languageId) in ns <==> langChanged
  {
    var dateNotice := if dateChanged then [DateChanged(jobId)] else [];
    var translatorNotice := if added.Some? then [TranslatorChanged(jobId, added.value)] else [];
    var ns := dateNotice + translatorNotice + (if langChanged then [LanguageChanged(jobId, languageId)] else []);
    assert added.Some? ==> ns[|dateNotice|] == TranslatorChanged(jobId, added.value);
    ns
  }

  class BookingRepository {
    var jobs: map<int, Job>
    var rels: seq<Assignment>
    var nextJobId: int
    var outbox: seq<Notice>

    /**
     * Every stored job sits under its own id, below the next id to hand out,
     * and its status is the reading of the text stored for it.
     */
    ghost predicate Valid()
      reads this
    {
      forall id :: id in jobs ==> jobs[id].id == id && id < nextJobId && Canonical(jobs[id].status)
    }

    constructor ()
      ensures Valid() && jobs == map[] && rels == [] && outbox == [] && nextJobId == 1
    {
      jobs := map[];
      rels := [];
      nextJobId := 1;
      outbox := [];
    }

    /** `save()` on a loaded job: the working copy replaces the stored row. */
    method Save(job: Job)
      requires Valid() && job.id in jobs && Canonical(job.status)
      modifies this
      ensures Valid()
      ensures jobs == old(jobs)[job.id := job]
      ensures rels == old(rels) && nextJobId == old(nextJobId) && outbox == old(outbox)
    {
      jobs := jobs[job.id := job];
    }

    /** Hands notices to the transports. */
    method Notify(ns: seq<Notice>)
      modifies this
      ensures outbox == old(outbox) + ns
      ensures jobs == old(jobs) && rels == old(rels) && nextJobId == old(nextJobId)
    {
      outbox := outbox + ns;
    }

    // ---------------------------------------------------------------- accept

    /** `assignJobToTranslator`: only a pending job is taken, and only when the link row is written. */
    method AssignJobToTranslator(job: Job, userId: int, insertSucceeds: bool, now: int) returns (ok: bool)
      requires Valid() && job.id in jobs && Canonical(job.status)
      modifies this
      ensures Valid()
      ensures ok <==> job.status == Pending && insertSucceeds
      ensures ok ==> jobs == old(jobs)[job.id := job.(status := Assigned)] && rels == old(rels) + [AcceptLink(job.id, userId, now)]
      ensures !ok ==> jobs == old(jobs) && rels == old(rels)
      ensures outbox == old(outbox) && nextJobId == old(nextJobId)
    {
      if job.status == Pending && insertSucceeds {
        rels := rels + [AcceptLink(job.id, userId, now)];
        Save(job.(status := Assigned));
        ok := true;
      } else {
        ok := false;
      }
    }

    /** `acceptJob`: a translator takes a pending job, unless already booked at that time. */
    method AcceptJob(jobId: int, userId: int, alreadyBooked: bool, insertSucceeds: bool, meta: UserMeta, night: bool, now: int)
      returns (r: Response)
      requires Valid()
      modifies this
      ensures Valid()
      ensures jobId !in old(jobs) ==> r == NotFound && unchanged(this)
      ensures jobId in old(jobs) && alreadyBooked ==> r == Fail(AlreadyBookedMessage) && unchanged(this)
      ensures jobId in old(jobs) && !alreadyBooked ==>
                var job := old(jobs)[jobId];
                if job.status == Pending && insertSucceeds then
                  && r == Success
                  && jobs == old(jobs)[jobId := job.(status := Assigned)]
                  && rels == old(rels) + [AcceptLink(jobId, userId, now)]
                  && outbox == old(outbox) + PushFor(JobAccepted, userId, jobId, meta, night)
                  && nextJobId == old(nextJobId)
                  && ActiveCount(rels, jobId) == ActiveCount(old(rels), jobId) + 1
                else r == Fail(NotAcceptedMessage) && jobs == old(jobs) && rels == old(rels) && outbox == old(outbox) && nextJobId == old(nextJobId)
    {
      if jobId !in jobs {
        return NotFound;
      }
      var job := jobs[jobId];
      if alreadyBooked {
        return Fail(AlreadyBookedMessage);
      }
      var ok := AssignJobToTranslator(job, userId, insertSucceeds, now);
      AcceptKeepsSingleActiveIff(old(rels), jobId, userId, now);
      if ok {
        Notify(PushFor(JobAccepted, userId, jobId, meta, night));
        r := Success;
      } else {
        r := Fail(NotAcceptedMessage);
      }
    }

    /** `acceptJobWithId`: the same acceptance, with refusals that name the due time and the language. */
    method AcceptJobWithId(jobId: int, userId: int, alreadyBooked: bool, insertSucceeds: bool, meta: UserMeta, night: bool,
                           language: string, dueText: string, now: int)
      returns (r: Response)
      requires Valid()
      modifies this
      ensures Valid()
      ensures jobId !in old(jobs) ==> r == NotFound && unchanged(this)
      ensures jobId in old(jobs) && alreadyBooked ==> r == Fail(BookedAtMessage(dueText)) && unchanged(this)
      ensures jobId in old(jobs) && !alreadyBooked ==>
                var job := old(jobs)[jobId];
                if job.status == Pending && insertSucceeds then
                  && r == Success
                  && jobs == old(jobs)[jobId := job.(status := Assigned)]
                  && rels == old(rels) + [AcceptLink(jobId, userId, now)]
                  && outbox == old(outbox) + PushFor(JobAccepted, userId, jobId, meta, night)
                  && nextJobId == old(nextJobId)
                  && ActiveCount(rels, jobId) == ActiveCount(old(rels), jobId) + 1
                else r == Fail(TakenMessage(language, job.duration, dueText)) && jobs == old(jobs) && rels == old(rels) && outbox == old(outbox) && nextJobId == old(nextJobId)
    {
      if jobId !in jobs {
        return NotFound;
      }
      var job := jobs[jobId];
      if alreadyBooked {
        return Fail(BookedAtMessage(dueText));
      }
      var ok := AssignJobToTranslator(job, userId, insertSucceeds, now);
      AcceptKeepsSingleActiveIff(old(rels), jobId, userId, now);
      if ok {
        Notify(PushFor(JobAccepted, userId, jobId, meta, night));
        r := Success;
      } else {
        r := Fail(TakenMessage(language, job.duration, dueText));
      }
    }

    // --------------------------------------------------------- status change

    /** `handlePendingStatus`. */
    method HandlePendingStatus(job: Job, now: int) returns (ok: bool, working: Job)
      requires Valid() && job.id in jobs && Canonical(job.status)
      modifies this
      ensures Valid()
      ensures var s := StatusTable.HandlePendingStatus(job, now);
              ok == s.ok && working == s.job && jobs == Committed(old(jobs), s) && outbox == old(outbox) + s.notices
      ensures rels == old(rels) && nextJobId == old(nextJobId)
    {
      working := job.(createdAt := now, emailSent := 0, emailSentToVirpal := 0);
      Save(working);
      Notify([SuitableJob(job.id, Wildcard)]);
      ok := true;
    }

    /** `changeTimedoutStatus`; the save-and-mail of `handleChangedTranslator` is inlined. */
    method ChangeTimedoutStatus(job: Job, req: StatusRequest, changedTranslator: bool, now: int) returns (ok: bool, working: Job)
      requires Valid() && job.id in jobs && Canonical(job.status)
      modifies this
      ensures Valid()
      ensures var s := TimedoutHandler(job, req, changedTranslator, now);
              ok == s.ok && working == s.job && jobs == Committed(old(jobs), s) && outbox == old(outbox) + s.notices
      ensures rels == old(rels) && nextJobId == old(nextJobId)
    {
      working := job.(status := ParseStatus(req.status));
      if req.status == "pending" {
        ok, working := HandlePendingStatus(working, now);
      } else if changedTranslator {
        Save(working);
        ok := true;
      } else {
        ok := false;
      }
    }

    /** `changeCompletedStatus`. */
    method ChangeCompletedStatus(job: Job, req: StatusRequest) returns (ok: bool, working: Job)
      requires Valid() && job.id in jobs && Canonical(job.status)
      modifies this
      ensures Valid()
      ensures var s := CompletedHandler(job, req);
              ok == s.ok && working == s.job && jobs == Committed(old(jobs), s) && outbox == old(outbox) + s.notices
      ensures rels == old(rels) && nextJobId == old(nextJobId)
    {
      working := job.(status := ParseStatus(req.status));
      if req.status == "timedout" {
        if IsEmpty(req.adminComments) {
          return false, working;
        }
        working := working.(adminComments := req.adminComments);
      }
      Save(working);
      ok := true;
    }

    /** `handleCompletedJob`. */
    method HandleCompletedJob(job: Job, req: StatusRequest, now: int) returns (ok: bool, working: Job)
      requires Valid() && job.id in jobs && Canonical(job.status)
      modifies this
      ensures Valid()
      ensures var s := StatusTable.HandleCompletedJob(job, req, now);
              ok == s.ok && working == s.job && jobs == Committed(old(jobs), s) && outbox == old(outbox) + s.notices
      ensures rels == old(rels) && nextJobId == old(nextJobId)
    {
      working := job;
      if IsEmpty(req.sessionTime) {
        return false, working;
      }
      working := working.(endAt := Some(now), sessionTime := req.sessionTime);
      Save(working);
      ok := true;
    }

    /** `changeStartedStatus`. */
    method ChangeStartedStatus(job: Job, req: StatusRequest, now: int) returns (ok: bool, working: Job)
      requires Valid() && job.id in jobs && Canonical(job.status)
      modifies this
      ensures Valid()
      ensures var s := StartedHandler(job, req, now);
              ok == s.ok && working == s.job && jobs == Committed(old(jobs), s) && outbox == old(outbox) + s.notices
      ensures rels == old(rels) && nextJobId == old(nextJobId)
    {
      working := job.(status := ParseStatus(req.status));
      if IsEmpty(req.adminComments) {
        return false, working;
      }
      working := working.(adminComments := req.adminComments);
      if req.status == "completed" {
        ok, working := HandleCompletedJob(working, req, now);
        return;
      }
      Save(working);
      ok := true;
    }

    /** `changePendingStatus`: the cancelled branch (`handleCancelledJob`) returns before any save. */
    method ChangePendingStatus(job: Job, req: StatusRequest, changedTranslator: bool) returns (ok: bool, working: Job)
      requires Valid() && job.id in jobs && Canonical(job.status)
      modifies this
      ensures Valid()
      ensures var s := PendingHandler(job, req, changedTranslator);
              ok == s.ok && working == s.job && jobs == Committed(old(jobs), s) && outbox == old(outbox) + s.notices
      ensures rels == old(rels) && nextJobId == old(nextJobId)
    {
      working := job.(status := ParseStatus(req.status));
      if IsEmpty(req.adminComments) && req.status == "timedout" {
        return false, working;
      }
      working := working.(adminComments := req.adminComments);
      if req.status == "assigned" && changedTranslator {
        Save(working);
        ok := true;
      } else {
        ok := true;
      }
    }

    /** `changeWithdrawafter24Status`. */
    method ChangeWithdrawafter24Status(job: Job, req: StatusRequest) returns (ok: bool, working: Job)
      requires Valid() && job.id in jobs && Canonical(job.status)
      modifies this
      ensures Valid()
      ensures var s := Withdrawafter24Handler(job, req);
              ok == s.ok && working == s.job && jobs == Committed(old(jobs), s) && outbox == old(outbox) + s.notices
      ensures rels == old(rels) && nextJobId == old(nextJobId)
    {
      working := job;
      if req.status == "timedout" {
        working := working.(status := Timedout);
        if LooseEqualsEmpty(req.adminComments) {
          return false, working;
        }
        working := working.(adminComments := req.adminComments);
        Save(working);
        return true, working;
      }
      ok := false;
    }

    /** `changeAssignedStatus`. */
    method ChangeAssignedStatus(job: Job, req: StatusRequest) returns (ok: bool, working: Job)
      requires Valid() && job.id in jobs && Canonical(job.status)
      modifies this
      ensures Valid()
      ensures var s := AssignedHandler(job, req);
              ok == s.ok && working == s.job && jobs == Committed(old(jobs), s) && outbox == old(outbox) + s.notices
      ensures rels == old(rels) && nextJobId == old(nextJobId)
    {
      working := job;
      if req.status in {"withdrawbefore24", "withdrawafter24", "timedout"} {
        working := working.(status := ParseStatus(req.status));
        if LooseEqualsEmpty(req.adminComments) && req.status == "timedout" {
          return false, working;
        }
        working := working.(adminComments := req.adminComments);
        Save(working);
        return true, working;
      }
      ok := false;
    }

    /** `processStatusChange`: the handler is chosen by the requested status. */
    method ProcessStatusChange(job: Job, req: StatusRequest, changedTranslator: bool, now: int) returns (ok: bool, working: Job)
      requires Valid() && job.id in jobs && Canonical(job.status)
      modifies this
      ensures Valid()
      ensures var s := StatusTable.ProcessStatusChange(job, req, changedTranslator, now);
              ok == s.ok && working == s.job && jobs == Committed(old(jobs), s) && outbox == old(outbox) + s.notices
      ensures rels == old(rels) && nextJobId == old(nextJobId)
    {
      match ParseStatus(req.status)
      case Timedout => ok, working := ChangeTimedoutStatus(job, req, changedTranslator, now);
      case Completed => ok, working := ChangeCompletedStatus(job, req);
      case Started => ok, working := ChangeStartedStatus(job, req, now);
      case Pending => ok, working := ChangePendingStatus(job, req, changedTranslator);
      case WithdrawAfter24 => ok, working := ChangeWithdrawafter24Status(job, req);
      case Assigned => ok, working := ChangeAssignedStatus(job, req);
      case _ => ok, working := false, job;
    }

    /** `changeStatus`: a request for a different status goes through the handler table. */
    method ChangeStatus(job: Job, req: StatusRequest, changedTranslator: bool, now: int) returns (change: StatusChange)
      requires Valid() && job.id in jobs && Canonical(job.status)
      modifies this
      ensures Valid()
      ensures var (c, s) := StatusTable.ChangeStatus(job, req, changedTranslator, now);
              change == c && jobs == Committed(old(jobs), s) && outbox == old(outbox) + s.notices
      ensures rels == old(rels) && nextJobId == old(nextJobId)
    {
      change := StatusChange(false, None);
      if StatusName(job.status) != req.status {
        var ok, _ := ProcessStatusChange(job, req, changedTranslator, now);
        if ok {
          change := StatusChange(true, Some((StatusName(job.status), req.status)));
        }
      }
    }

    // ---------------------------------------------------------- cancellation

    /** `cancelJobAjax`: `translator` is the job's assigned translator as the job model reports it, `customer` the job's owner. */
    method CancelJobAjax(jobId: int, isCustomer: bool, translator: Option<int>, customer: Option<int>,
                         meta: UserMeta, night: bool, expiry: (int, int) -> int, now: int)
      returns (r: Response)
      requires Valid()
      requires customer.Some? && jobId in jobs ==> customer.value == jobs[jobId].userId
      modifies this
      ensures Valid() && nextJobId == old(nextJobId)
      ensures jobId !in old(jobs) ==> r == NotFound && unchanged(this)
      ensures jobId in old(jobs) && isCustomer ==>
                var job := old(jobs)[jobId];
                && r == Success
                && jobs == old(jobs)[jobId := job.(withdrawAt := Some(now), status := CustomerWithdrawStatus(job.due, now))]
                && rels == old(rels) && nextJobId == old(nextJobId)
                && outbox == old(outbox) + (if translator.Some? then PushFor(JobCancelled, translator.value, jobId, meta, night) else [])
      ensures jobId in old(jobs) && !isCustomer ==>
                var job := old(jobs)[jobId];
                if TranslatorMayCancel(job.due, now) then TranslatorCancelled(old(jobs), old(rels), old(outbox), job, translator, customer, meta, night, expiry, now, r)
                else r == Fail(CancelTooLateMessage) && unchanged(this)
    {
      if jobId !in jobs {
        return NotFound;
      }
      var job := jobs[jobId];
      if isCustomer {
        r := HandleCustomerCancellation(job, translator, meta, night, now);
      } else {
        r := HandleTranslatorCancellation(job, translator, customer, meta, night, expiry, now);
      }
    }

    /** `handleCustomerCancellation`: withdraws the job, early or late by the 24-hour rule, and tells the translator. */
    method HandleCustomerCancellation(job: Job, translator: Option<int>, meta: UserMeta, night: bool, now: int) returns (r: Response)
      requires Valid() && job.id in jobs && Canonical(job.status)
      modifies this
      ensures Valid()
      ensures r == Success
      ensures jobs == old(jobs)[job.id := job.(withdrawAt := Some(now), status := CustomerWithdrawStatus(job.due, now))]
      ensures rels == old(rels) && nextJobId == old(nextJobId)
      ensures outbox == old(outbox) + (if translator.Some? then PushFor(JobCancelled, translator.value, job.id, meta, night) else [])
    {
      var working := job.(withdrawAt := Some(now));
      working := working.(status := CustomerWithdrawStatus(job.due, now));
      Save(working);
      if translator.Some? {
        Notify(PushFor(JobCancelled, translator.value, job.id, meta, night));
      } else {
        Notify([]);
      }
      r := Success;
    }

    /** What a translator's cancellation inside its window leaves behind (see `ProcessTranslatorCancellation`). */
    ghost predicate TranslatorCancelled(jobs0: map<int, Job>, rels0: seq<Assignment>, outbox0: seq<Notice>, job: Job,
                                        translator: Option<int>, customer: Option<int>, meta: UserMeta, night: bool,
                                        expiry: (int, int) -> int, now: int, r: Response)
      reads this
    {
      var pushes := if customer.Some? then PushFor(JobCancelled, customer.value, job.id, meta, night) else [];
      && jobs == jobs0[job.id := job.(status := Pending, createdAt := now, willExpireAt := expiry(job.due, now))]
      && (translator.None? ==> r == Aborted && rels == rels0 && outbox == outbox0 + pushes)
      && (translator.Some? ==>
            && r == Success
            && rels == DeleteLinks(rels0, translator.value, job.id)
            && outbox == outbox0 + pushes + [SuitableJob(job.id, ExcludeUser(translator.value))])
    }

    /** `handleTranslatorCancellation` (the one taking a job): refused within the 24-hour window. */
    method HandleTranslatorCancellation(job: Job, translator: Option<int>, customer: Option<int>,
                                        meta: UserMeta, night: bool, expiry: (int, int) -> int, now: int)
      returns (r: Response)
      requires Valid() && job.id in jobs && Canonical(job.status)
      requires customer.Some? ==> customer.value == job.userId
      modifies this
      ensures Valid() && nextJobId == old(nextJobId)
      ensures TranslatorMayCancel(job.due, now) ==>
                TranslatorCancelled(old(jobs), old(rels), old(outbox), job, translator, customer, meta, night, expiry, now, r)
      ensures !TranslatorMayCancel(job.due, now) ==> r == Fail(CancelTooLateMessage) && unchanged(this)
    {
      if TranslatorMayCancel(job.due, now) {
        r := ProcessTranslatorCancellation(job, translator, customer, meta, night, expiry, now);
      } else {
        r := Fail(CancelTooLateMessage);
      }
    }

    /**
     * `processTranslatorCancellation`: tells the customer, puts the job back
     * to pending, removes the translator's link rows and offers the job to
     * everyone else. Without an assigned translator the removal has no id
     * to use, and the model stops there.
     */
    method ProcessTranslatorCancellation(job: Job, translator: Option<int>, customer: Option<int>,
                                         meta: UserMeta, night: bool, expiry: (int, int) -> int, now: int)
      returns (r: Response)
      requires Valid() && job.id in jobs && Canonical(job.status)
      requires customer.Some? ==> customer.value == job.userId
      modifies this
      ensures Valid() && nextJobId == old(nextJobId)
      ensures TranslatorCancelled(old(jobs), old(rels), old(outbox), job, translator, customer, meta, night, expiry, now, r)
    {
      if customer.Some? {
        Notify(PushFor(JobCancelled, customer.value, job.id, meta, night));
      } else {
        Notify([]);
      }
      var working := job.(status := Pending, createdAt := now, willExpireAt := expiry(job.due, now));
      Save(working);
      if translator.None? {
        return Aborted;
      }
      rels := DeleteLinks(rels, translator.value, job.id);
      Notify([SuitableJob(job.id, ExcludeUser(translator.value))]);
      r := Success;
    }

    // ---------------------------------------------------------------- ending

    /** `endJob`: only a started job is completed; the active link row is then completed by the posting user. */
    method EndJob(jobId: int, postUserId: int, sessionTime: string, now: int) returns (r: Response)
      requires Valid()
      modifies this
      ensures Valid() && outbox == old(outbox) && nextJobId == old(nextJobId)
      ensures AtMostOneActive(old(rels), jobId) ==> ActiveCount(rels, jobId) == if rels == old(rels) then ActiveCount(old(rels), jobId) else 0
      ensures jobId !in old(jobs) || old(jobs)[jobId].status != Started ==> r == Success && unchanged(this)
      ensures jobId in old(jobs) && old(jobs)[jobId].status == Started ==>
                && jobs == old(jobs)[jobId := old(jobs)[jobId].(endAt := Some(now), status := Completed, sessionTime := Some(sessionTime))]
                && match ActiveTranslator(old(rels), jobId)
                   case None => r == Aborted && rels == old(rels)
                   case Some(i) => r == Success && rels == old(rels)[i := CompleteRow(old(rels)[i], now, Some(postUserId))]
    {
      if jobId !in jobs || jobs[jobId].status != Started {
        return Success;
      }
      var job := jobs[jobId];
      job := job.(endAt := Some(now), status := Completed, sessionTime := Some(sessionTime));
      Save(job);
      var active := ActiveTranslator(rels, jobId);
      if active.None? {
        return Aborted;
      }
      var i := active.value;
      CompletingActiveRow(rels, jobId, now, Some(postUserId));
      rels := rels[i := CompleteRow(rels[i], now, Some(postUserId))];
      r := Success;
    }

    /** `jobEnd`: completes the job whatever its status, then the active link row. */
    method JobEnd(jobId: int, postUserId: int, sessionTime: string, now: int) returns (r: Response)
      requires Valid()
      modifies this
      ensures Valid() && outbox == old(outbox) && nextJobId == old(nextJobId)
      ensures r == Silent && AtMostOneActive(old(rels), jobId) ==> ActiveCount(rels, jobId) == 0
      ensures jobId !in old(jobs) ==> r == Aborted && unchanged(this)
      ensures jobId in old(jobs) ==>
                && jobs == old(jobs)[jobId := old(jobs)[jobId].(endAt := Some(now), status := Completed, sessionTime := Some(sessionTime))]
                && match ActiveTranslator(old(rels), jobId)
                   case None => r == Aborted && rels == old(rels)
                   case Some(i) => r == Silent && rels == old(rels)[i := CompleteRow(old(rels)[i], now, Some(postUserId))]
    {
      if jobId !in jobs {
        return Aborted;
      }
      var job := jobs[jobId];
      job := job.(endAt := Some(now), status := Completed, sessionTime := Some(sessionTime));
      Save(job);
      var active := ActiveTranslator(rels, jobId);
      if active.None? {
        return Aborted;
      }
      var i := active.value;
      CompletingActiveRow(rels, jobId, now, Some(postUserId));
      rels := rels[i := CompleteRow(rels[i], now, Some(postUserId))];
      r := Silent;
    }

    /** `customerNotCall`: the active link row is completed by its own translator and the job marked not carried out. */
    method CustomerNotCall(jobId: int, now: int) returns (r: Response)
      requires Valid()
      modifies this
      ensures Valid() && outbox == old(outbox) && nextJobId == old(nextJobId)
      ensures r == Success && AtMostOneActive(old(rels), jobId) ==> ActiveCount(rels, jobId) == 0
      ensures jobId !in old(jobs) || ActiveTranslator(old(rels), jobId).None? ==> r == Aborted && unchanged(this)
      ensures jobId in old(jobs) && ActiveTranslator(old(rels), jobId).Some? ==>
                var i := ActiveTranslator(old(rels), jobId).value;
                && r == Success
                && jobs == old(jobs)[jobId := old(jobs)[jobId].(endAt := Some(now), status := NotCarriedOutCustomer)]
                && rels == old(rels)[i := CompleteRow(old(rels)[i], now, old(rels)[i].userId)]
    {
      if jobId !in jobs {
        return Aborted;
      }
      var job := jobs[jobId];
      job := job.(endAt := Some(now), status := NotCarriedOutCustomer);
      var active := ActiveTranslator(rels, jobId);
      if active.None? {
        return Aborted;
      }
      var i := active.value;
      var row := CompleteRow(rels[i], now, rels[i].userId);
      CompletingActiveRow(rels, jobId, now, rels[i].userId);
      Save(job);
      rels := rels[i := row];
      r := Success;
    }

    // ---------------------------------------------------------------- update

    /** `changeTranslator`: applies the decision to the link rows; a replacement is added before the old row is cancelled. */
    method ChangeTranslator(current: Option<nat>, translator: Option<int>, email: Option<string>,
                            userByEmail: string -> int, job: Job, now: int)
      returns (added: Option<Assignment>)
      requires current.Some? ==> current.value < |rels|
      modifies this
      ensures var c := DecideTranslatorChange(old(rels), current, translator, email, userByEmail);
              (rels, added) == ApplyTranslatorChange(old(rels), job.id, c, now)
      ensures jobs == old(jobs) && outbox == old(outbox) && nextJobId == old(nextJobId)
      ensures added.None? ==> rels == old(rels)
      ensures added.Some? ==>
                && translator.Some?
                && |rels| == |old(rels)| + 1 && rels[|old(rels)|] == added.value
                && added.value.userId == Some(RequestedTranslator(translator.value, email, userByEmail))
      ensures added.Some? && current.Some? ==>
                && rels[current.value] == old(rels)[current.value].(cancelAt := Some(now))
                && added.value == old(rels)[current.value].(userId := added.value.userId)
                && forall j :: 0 <= j < |old(rels)| && j != current.value ==> rels[j] == old(rels)[j]
    {
      var c := DecideTranslatorChange(rels, current, translator, email, userByEmail);
      match c
      case KeepTranslator =>
        added := None;
      case Replace(i, t) =>
        var copy := rels[i].(userId := Some(t));
        var cancelled := rels[i].(cancelAt := Some(now));
        rels := rels + [copy];
        rels := rels[i := cancelled];
        assert rels == old(rels)[i := cancelled] + [copy];
        added := Some(copy);
      case Create(t) =>
        var row := Assignment(job.id, Some(t), now, None, None, None);
        rels := rels + [row];
        added := Some(row);
    }

    /**
     * `updateJob`: changes the translator, then stores the new due time,
     * language, admin comment and reference; changes are announced only
     * for a job still due in the future.
     */
    method UpdateJob(id: int, req: UpdateRequest, userByEmail: string -> int, now: int) returns (r: Response)
      requires Valid()
      modifies this
      ensures Valid() && nextJobId == old(nextJobId)
      ensures id !in old(jobs) ==> r == Aborted && unchanged(this)
      ensures AtMostOneActive(old(rels), id) ==> AtMostOneActive(rels, id)
      ensures id in old(jobs) ==>
                var job := old(jobs)[id];
                var c := DecideTranslatorChange(old(rels), CurrentTranslator(old(rels), id), req.translator, req.translatorEmail, userByEmail);
                var (rels1, added) := ApplyTranslatorChange(old(rels), id, c, now);
                && rels == rels1
                && jobs == old(jobs)[id := job.(due := req.due, fromLanguageId := req.fromLanguageId,
                                                adminComments := req.adminComments, reference := req.reference)]
                && (req.due <= now ==> r == Messages(["Updated"]) && outbox == old(outbox))
                && (req.due > now ==> r == Silent)
                && (req.due > now ==>
                      outbox == old(outbox) + ChangeNotices(id, job.due != req.due, added, job.fromLanguageId != req.fromLanguageId, req.fromLanguageId))
    {
      if id !in jobs {
        return Aborted;
      }
      var job := jobs[id];
      var current := CurrentTranslator(rels, id);
      TranslatorChangeKeepsSingleActive(rels, id, req.translator, req.translatorEmail, userByEmail, now);
      var added := ChangeTranslator(current, req.translator, req.translatorEmail, userByEmail, job, now);
      var dueChange := ChangeDue(job.due, req.due);
      var (langChanged, working) := ChangeLanguage(job, req.fromLanguageId);
      working := working.(due := req.due, adminComments := req.adminComments, reference := req.reference);
      Save(working);
      if req.due <= now {
        return Messages(["Updated"]);
      }
      Notify(ChangeNotices(id, dueChange.dateChanged, added, langChanged, req.fromLanguageId));
      r := Silent;
    }

    // ---------------------------------------------------------------- reopen

    /** `handleJobStatus`: a timed-out job is reopened as a new copy, any other job in place. */
    method HandleJobStatus(job: Job, userId: int, now: int, expiresAt: int) returns (newId: int)
      requires Valid() && job.id in jobs && Canonical(job.status)
      modifies this
      ensures Valid()
      ensures job.status != Timedout ==>
                newId == job.id && jobs == old(jobs)[job.id := ReopenedInPlace(job, userId, now, expiresAt)] && nextJobId == old(nextJobId)
      ensures job.status == Timedout ==>
                && newId == old(nextJobId) && newId !in old(jobs) && nextJobId == old(nextJobId) + 1
                && jobs == old(jobs)[newId := ReopenedCopy(job, newId, userId, now, expiresAt)]
      ensures newId in jobs && rels == old(rels) && outbox == old(outbox)
    {
      if job.status != Timedout {
        Save(ReopenedInPlace(job, userId, now, expiresAt));
        newId := job.id;
      } else {
        newId := nextJobId;
        nextJobId := nextJobId + 1;
        jobs := jobs[newId := ReopenedCopy(job, newId, userId, now, expiresAt)];
      }
    }

    /** The `handleTranslatorCancellation` used by a reopen: closes the old job's open rows and appends the placeholder row. */
    method CancelReopenedLinks(jobId: int, now: int)
      modifies this
      ensures rels == ReopenedLinks(old(rels), jobId, now)
      ensures jobs == old(jobs) && outbox == old(outbox) && nextJobId == old(nextJobId)
    {
      rels := CancelOpenLinks(rels, jobId, now);
      rels := rels + [ReopenPlaceholder(jobId, now)];
    }

    /** `reopen`: puts the booking back on offer to every translator and releases the old job's translators. */
    method Reopen(jobId: int, userId: int, expiry: (int, int) -> int, now: int) returns (r: Response)
      requires Valid()
      modifies this
      ensures Valid()
      ensures jobId !in old(jobs) ==> r == Messages([JobNotFoundMessage]) && unchanged(this)
      ensures jobId in old(jobs) ==>
                var job := old(jobs)[jobId];
                var expiresAt := expiry(job.due, now);
                var newId := if job.status == Timedout then old(nextJobId) else jobId;
                && r == Messages([ReopenedMessage])
                && (job.status != Timedout ==> jobs == old(jobs)[jobId := ReopenedInPlace(job, userId, now, expiresAt)])
                && (job.status == Timedout ==> jobs == old(jobs)[newId := ReopenedCopy(job, newId, userId, now, expiresAt)])
                && rels == ReopenedLinks(old(rels), jobId, now)
                && ActiveCount(rels, jobId) == 0
                && (forall a :: a in rels && a.jobId == jobId ==> a.cancelAt.Some?)
                && nextJobId == old(nextJobId) + (if job.status == Timedout then 1 else 0)
                && outbox == old(outbox) + [SuitableJob(newId, Wildcard)]
    {
      if jobId !in jobs {
        return Messages([JobNotFoundMessage]);
      }
      var job := jobs[jobId];
      var expiresAt := expiry(job.due, now);
      var newId := HandleJobStatus(job, userId, now, expiresAt);
      ReopenLeavesNoActive(rels, jobId, now);
      CancelReopenedLinks(jobId, now);
      Notify([SuitableJob(newId, Wildcard)]);
      r := Messages([ReopenedMessage]);
    }
  }
}
