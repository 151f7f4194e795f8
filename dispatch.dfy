/**
 * Who hears about a booking: the push opt-out and night-time rules, the
 * eligibility test a translator must pass before a new-booking push, the
 * split of admitted translators into an immediate and a delayed batch, and
 * the town filter on the jobs offered to a translator.
 */
module Dispatch {
  import opened Wrappers
  import opened PhpValues
  import opened Domain
  import opened Classify
  import opened Formatting

  /** `TeHelper::getUsermeta(userId, key)`; a missing value reads as `""`. */
  type UserMeta = (int, string) -> string

  /** `isNeedToSendPush`: the user has not set `not_get_notification` to `yes`. */
  predicate IsNeedToSendPush(meta: UserMeta, userId: int) {
    meta(userId, "not_get_notification") != "yes"
  }

  /** `isNeedToDelayPush`: it is night-time and the user set `not_get_nighttime` to `yes`. */
  predicate IsNeedToDelayPush(night: bool, meta: UserMeta, userId: int) {
    night && meta(userId, "not_get_nighttime") == "yes"
  }

  /**
   * A user row as the broadcast loop sees it, with the answers of the
   * external job queries for the job being broadcast: the ids the user's
   * potential-job query returns, `assignedToPaticularTranslator` and
   * `checkParticularJob`.
   */
  datatype Candidate = Candidate(
    id: int,
    email: string,
    userType: int,
    status: int,
    potentialJobIds: seq<int>,
    specificJob: string,
    particularJob: string)

  /** The fixed inputs of one broadcast. */
  datatype Broadcast = Broadcast(jobId: int, immediate: string, exclude: Exclusion, meta: UserMeta, night: bool)

  predicate Excluded(userId: int, exclude: Exclusion) {
    exclude.ExcludeUser? && exclude.id == userId
  }

  /**
   * `isEligibleTranslator`, as written: an active translator account, not
   * the excluded user, for whom `isNeedToSendPush` is FALSE, and not opted
   * out of emergency bookings when the booking is immediate.
   */
  predicate IsEligibleTranslator(u: Candidate, b: Broadcast) {
    && u.userType == 2
    && u.status == 1
    && !Excluded(u.id, b.exclude)
    && !IsNeedToSendPush(b.meta, u.id)
    && !(b.immediate == "yes" && b.meta(u.id, "not_get_emergency") == "yes")
  }

  /** The negation at the eligibility test admits exactly the users who switched notifications off. */
  lemma EligibleOnlyIfOptedOut(u: Candidate, b: Broadcast)
    ensures IsEligibleTranslator(u, b) ==> b.meta(u.id, "not_get_notification") == "yes"
    ensures IsEligibleTranslator(u, b) ==> !IsNeedToSendPush(b.meta, u.id)
  {
  }

  /** The checks of `checkAndCategorizeTranslatorForJob`. */
  predicate AcceptsPush(u: Candidate) {
    u.specificJob == "SpecificJob" && u.particularJob != "userCanNotAcceptJob"
  }

  /** How often `id` occurs in `ids`. */
  function CountOf(ids: seq<int>, id: int): nat
    decreases |ids|
  {
    if ids == [] then 0 else CountOf(ids[..|ids| - 1], id) + (if ids[|ids| - 1] == id then 1 else 0)
  }

  lemma CountOfPositive(ids: seq<int>, id: int)
    ensures CountOf(ids, id) > 0 <==> id in ids
    decreases |ids|
  {
    if ids != [] {
      CountOfPositive(ids[..|ids| - 1], id);
      assert ids == ids[..|ids| - 1] + [ids[|ids| - 1]];
    }
  }

  function Repeat(u: Candidate, n: nat): (r: seq<Candidate>)
    ensures |r| == n
    ensures forall i :: 0 <= i < n ==> r[i] == u
  {
    seq(n, _ => u)
  }

  /** What one user contributes to the batches: one copy per occurrence of the job among its potential jobs. */
  function Contribution(u: Candidate, b: Broadcast): seq<Candidate> {
    if IsEligibleTranslator(u, b) && AcceptsPush(u) then Repeat(u, CountOf(u.potentialJobIds, b.jobId)) else []
  }

  /** Admitted: eligible, the job is among its potential jobs, and the job-specific checks pass. */
  predicate Admitted(u: Candidate, b: Broadcast) {
    IsEligibleTranslator(u, b) && AcceptsPush(u) && b.jobId in u.potentialJobIds
  }

  lemma ContributionMembers(v: Candidate, b: Broadcast, u: Candidate)
    ensures u in Contribution(v, b) <==> u == v && Admitted(v, b)
  {
    CountOfPositive(v.potentialJobIds, b.jobId);
    if u == v && Admitted(v, b) {
      assert Contribution(v, b)[0] == v;
    }
  }

  function ImmediateBatch(users: seq<Candidate>, b: Broadcast): seq<Candidate>
    decreases |users|
  {
    if users == [] then []
    else
      var u := users[|users| - 1];
      ImmediateBatch(users[..|users| - 1], b) + (if IsNeedToDelayPush(b.night, b.meta, u.id) then [] else Contribution(u, b))
  }

  function DelayedBatch(users: seq<Candidate>, b: Broadcast): seq<Candidate>
    decreases |users|
  {
    if users == [] then []
    else
      var u := users[|users| - 1];
      DelayedBatch(users[..|users| - 1], b) + (if IsNeedToDelayPush(b.night, b.meta, u.id) then Contribution(u, b) else [])
  }

  /**
   * Every user in the immediate batch is admitted and not delayed, every
   * user in the delayed batch is admitted and delayed, and every admitted
   * user of the roster is in the batch its night-time setting selects.
   */
  lemma {:induction false} BatchMembership(users: seq<Candidate>, b: Broadcast, u: Candidate)
    ensures u in ImmediateBatch(users, b) <==> u in users && Admitted(u, b) && !IsNeedToDelayPush(b.night, b.meta, u.id)
    ensures u in DelayedBatch(users, b) <==> u in users && Admitted(u, b) && IsNeedToDelayPush(b.night, b.meta, u.id)
    decreases |users|
  {
    if users != [] {
      var init, last := users[..|users| - 1], users[|users| - 1];
      BatchMembership(init, b, u);
      assert users == init + [last];
      ContributionMembers(last, b, u);
      assert u in users <==> u in init || u == last;
    }
  }

  /** An admitted translator is in exactly one of the two batches. */
  lemma ExactlyOneBatch(users: seq<Candidate>, b: Broadcast, u: Candidate)
    requires u in users && Admitted(u, b)
    ensures (u in ImmediateBatch(users, b)) != (u in DelayedBatch(users, b))
    ensures u in DelayedBatch(users, b) <==> b.night && b.meta(u.id, "not_get_nighttime") == "yes"
  {
    BatchMembership(users, b, u);
  }

  /** The loop of `sendNotificationTranslator`, with `processJobForTranslator` and `checkAndCategorizeTranslatorForJob` inlined. */
  method BatchTranslators(users: seq<Candidate>, b: Broadcast) returns (immediate: seq<Candidate>, delayed: seq<Candidate>)
    ensures immediate == ImmediateBatch(users, b)
    ensures delayed == DelayedBatch(users, b)
  {
    immediate, delayed := [], [];
    for i := 0 to |users|
      invariant immediate == ImmediateBatch(users[..i], b)
      invariant delayed == DelayedBatch(users[..i], b)
    {
      var u := users[i];
      var delay := IsNeedToDelayPush(b.night, b.meta, u.id);
      ghost var immediate0, delayed0 := immediate, delayed;
      if IsEligibleTranslator(u, b) {
        for j := 0 to |u.potentialJobIds|
          invariant immediate == immediate0 + (if AcceptsPush(u) && !delay then Repeat(u, CountOf(u.potentialJobIds[..j], b.jobId)) else [])
          invariant delayed == delayed0 + (if AcceptsPush(u) && delay then Repeat(u, CountOf(u.potentialJobIds[..j], b.jobId)) else [])
        {
          assert u.potentialJobIds[..j + 1][..j] == u.potentialJobIds[..j];
          if u.potentialJobIds[j] == b.jobId && AcceptsPush(u) {
            if delay {
              delayed := delayed + [u];
            } else {
              immediate := immediate + [u];
            }
          }
        }
        assert u.potentialJobIds[..|u.potentialJobIds|] == u.potentialJobIds;
      }
      assert users[..i + 1][..i] == users[..i];
    }
    assert users[..|users|] == users;
  }

  function Emails(users: seq<Candidate>): (emails: seq<string>)
    ensures |emails| == |users|
    ensures forall i :: 0 <= i < |users| ==> emails[i] == users[i].email
  {
    seq(|users|, i requires 0 <= i < |users| => users[i].email)
  }

  /**
   * `sendNotificationTranslator` with `sendPushNotifications`: the two
   * batches, and the two OneSignal requests sent for them (both are sent,
   * even for an empty batch). `due` is the due date as stored text.
   */
  method SendNotificationTranslator(users: seq<Candidate>, b: Broadcast, language: string, duration: int,
                                    due: string, appId: string, nextBusinessTime: string)
    returns (immediate: seq<Candidate>, delayed: seq<Candidate>, immediateFields: PushFields, delayedFields: PushFields)
    ensures immediate == ImmediateBatch(users, b) && delayed == DelayedBatch(users, b)
    ensures immediateFields.sendAfter == None
    ensures delayedFields.sendAfter == Some(nextBusinessTime)
    ensures immediateFields.tags == "[" + Join(Tags(Emails(immediate)), OrSeparator) + "]"
    ensures delayedFields.tags == "[" + Join(Tags(Emails(delayed)), OrSeparator) + "]"
    ensures immediateFields.data == delayedFields.data == PushData("suitable_job", b.immediate)
    ensures immediateFields.contents == delayedFields.contents == NotificationMessage(b.immediate, language, duration, due)
  {
    immediate, delayed := BatchTranslators(users, b);
    var data := PushData("suitable_job", b.immediate);
    var text := NotificationMessage(b.immediate, language, duration, due);
    var immediateTags := GetUserTagsString(Emails(immediate));
    immediateFields := PreparePushFields(data, text, immediateTags, appId, false, nextBusinessTime);
    var delayedTags := GetUserTagsString(Emails(delayed));
    delayedFields := PreparePushFields(data, text, delayedTags, appId, true, nextBusinessTime);
  }

  /** A job offered in person only: no phone fallback (`no` or empty) and physical presence required. */
  predicate PhysicalOnly(job: Job) {
    (job.customerPhoneType == "no" || job.customerPhoneType == "") && job.customerPhysicalType == "yes"
  }

  /**
   * The physical-job SMS goes only to jobs the town rule treats as
   * physical-only, and to exactly those whose phone type is `no`.
   */
  lemma PhysicalSmsOnlyForPhysicalOnly(job: Job, jobCity: Option<string>, posterCity: string)
    ensures PrepareSmsMessage(job, jobCity, posterCity).PhysicalJobMessage? <==>
              PhysicalOnly(job) && job.customerPhoneType == "no"
  {
  }

  /**
   * The two readings of "physical only" differ on an empty phone type: the
   * town rule treats such a job as physical-only, while its SMS is the
   * phone-job template, which names no town.
   */
  lemma EmptyPhoneTypeGetsPhoneSms(job: Job, jobCity: Option<string>, posterCity: string)
    requires job.customerPhoneType == "" && job.customerPhysicalType == "yes"
    ensures PhysicalOnly(job)
    ensures PrepareSmsMessage(job, jobCity, posterCity).PhoneJobMessage?
  {
  }

  /** `Job::checkTowns(customerId, translatorId)`: whether customer and translator share a town. */
  type TownCheck = (int, int) -> bool

  /** The town rule of `filterJobsByTown` and `getPotentialJobs`. */
  predicate TownExcludes(job: Job, translatorId: int, checkTowns: TownCheck) {
    PhysicalOnly(job) && !checkTowns(job.userId, translatorId)
  }

  /** The jobs the town rule keeps, in their original order. */
  function KeptByTown(jobs: seq<Job>, translatorId: int, checkTowns: TownCheck): seq<Job>
    decreases |jobs|
  {
    if jobs == [] then []
    else
      var last := jobs[|jobs| - 1];
      KeptByTown(jobs[..|jobs| - 1], translatorId, checkTowns) + (if TownExcludes(last, translatorId, checkTowns) then [] else [last])
  }

  lemma {:induction false} KeptByTownMembers(jobs: seq<Job>, translatorId: int, checkTowns: TownCheck, job: Job)
    ensures job in KeptByTown(jobs, translatorId, checkTowns) <==> job in jobs && !TownExcludes(job, translatorId, checkTowns)
    ensures |KeptByTown(jobs, translatorId, checkTowns)| <= |jobs|
    decreases |jobs|
  {
    if jobs != [] {
      KeptByTownMembers(jobs[..|jobs| - 1], translatorId, checkTowns, job);
      assert jobs == jobs[..|jobs| - 1] + [jobs[|jobs| - 1]];
    }
  }

  /** `filterJobsByTown`: drops the in-person-only jobs of customers outside the translator's town. */
  method FilterJobsByTown(jobs: seq<Job>, translatorId: int, checkTowns: TownCheck) returns (kept: seq<Job>)
    ensures kept == KeptByTown(jobs, translatorId, checkTowns)
    ensures forall job :: job in kept <==> job in jobs && !TownExcludes(job, translatorId, checkTowns)
  {
    kept := [];
    for i := 0 to |jobs|
      invariant kept == KeptByTown(jobs[..i], translatorId, checkTowns)
    {
      assert jobs[..i + 1][..i] == jobs[..i];
      if !TownExcludes(jobs[i], translatorId, checkTowns) {
        kept := kept + [jobs[i]];
      }
    }
    assert jobs[..|jobs|] == jobs;
    forall job ensures job in kept <==> job in jobs && !TownExcludes(job, translatorId, checkTowns) {
      KeptByTownMembers(jobs, translatorId, checkTowns, job);
    }
  }

  /** A job offered to a translator, annotated as `getPotentialJobs` annotates it. */
  datatype PotentialJob = PotentialJob(job: Job, specificJob: string, checkParticularJob: string)

  /** The rule by which `getPotentialJobs` drops an annotated job. */
  predicate Withheld(p: PotentialJob, translatorId: int, checkTowns: TownCheck) {
    (p.specificJob == "SpecificJob" && p.checkParticularJob == "userCanNotAcceptJob")
    || TownExcludes(p.job, translatorId, checkTowns)
  }

  /** The queried jobs, annotated, that survive the two drop rules, in query order. */
  function OfferedJobs(jobs: seq<Job>, translatorId: int, assignedTo: int -> string, checkParticular: Job -> string,
                       checkTowns: TownCheck): seq<PotentialJob>
    decreases |jobs|
  {
    if jobs == [] then []
    else
      var last := jobs[|jobs| - 1];
      var p := PotentialJob(last, assignedTo(last.id), checkParticular(last));
      OfferedJobs(jobs[..|jobs| - 1], translatorId, assignedTo, checkParticular, checkTowns)
      + (if Withheld(p, translatorId, checkTowns) then [] else [p])
  }

  /**
   * `getPotentialJobs`: the job type is derived from the translator type,
   * the external query `getJobs` is run for it, and a job is dropped when it
   * is specific to this translator who cannot accept it, or by the town rule.
   * `assignedTo` and `checkParticular` are the two external checks for this translator.
   */
  method GetPotentialJobs(translatorId: int, translatorType: Option<string>, getJobs: string -> seq<Job>,
                          assignedTo: int -> string, checkParticular: Job -> string, checkTowns: TownCheck)
    returns (jobType: string, offered: seq<PotentialJob>)
    ensures jobType == JobTypeForTranslator(translatorType.GetOr(""))
    ensures offered == OfferedJobs(getJobs(jobType), translatorId, assignedTo, checkParticular, checkTowns)
    ensures |offered| <= |getJobs(jobType)|
    ensures forall p :: p in offered <==>
              && p.job in getJobs(jobType)
              && p.specificJob == assignedTo(p.job.id)
              && p.checkParticularJob == checkParticular(p.job)
              && !(p.specificJob == "SpecificJob" && p.checkParticularJob == "userCanNotAcceptJob")
              && !TownExcludes(p.job, translatorId, checkTowns)
  {
    jobType := "unpaid";
    var tt := translatorType.GetOr("");
    if tt == "professional" {
      jobType := "paid";
    } else if tt == "rwstranslator" {
      jobType := "rws";
    } else if tt == "volunteer" {
      jobType := "unpaid";
    }
    var jobs := getJobs(jobType);
    offered := [];
    for i := 0 to |jobs|
      invariant |offered| <= i
      invariant offered == OfferedJobs(jobs[..i], translatorId, assignedTo, checkParticular, checkTowns)
      invariant forall p :: p in offered <==>
                  && p.job in jobs[..i]
                  && p.specificJob == assignedTo(p.job.id)
                  && p.checkParticularJob == checkParticular(p.job)
                  && !(p.specificJob == "SpecificJob" && p.checkParticularJob == "userCanNotAcceptJob")
                  && !TownExcludes(p.job, translatorId, checkTowns)
    {
      var job := jobs[i];
      var annotated := PotentialJob(job, assignedTo(job.id), checkParticular(job));
      var drop := false;
      if annotated.specificJob == "SpecificJob" && annotated.checkParticularJob == "userCanNotAcceptJob" {
        drop := true;
      }
      if TownExcludes(job, translatorId, checkTowns) {
        drop := true;
      }
      assert jobs[..i + 1] == jobs[..i] + [job];
      assert jobs[..i + 1][..i] == jobs[..i];
      if !drop {
        offered := offered + [annotated];
      }
    }
    assert jobs[..|jobs|] == jobs;
  }
}
