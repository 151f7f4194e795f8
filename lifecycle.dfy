/**
 * The decisions the repository's lifecycle operations take, as functions on
 * values: the cancellation windows, the link rows written by accepting,
 * changing the translator, ending and reopening a job, and the job written
 * by a reopen. The `BookingRepository` methods apply exactly these.
 */
module Lifecycle {
  import opened Wrappers
  import opened PhpValues
  import opened Domain
  import opened Assignments

  const Day := 24 * SecondsPerHour

  /**
   * `handleCustomerCancellation`: the withdrawal counts as early when the
   * absolute, truncated hour difference between now and the due instant is
   * at least 24 — whichever side of the due instant now lies on.
   */
  function CustomerWithdrawStatus(due: int, now: int): (s: Status)
    ensures s == WithdrawBefore24 <==> (if now <= due then due - now else now - due) >= Day
    ensures s == WithdrawBefore24 || s == WithdrawAfter24
  {
    DiffAtLeast(now, due, 24);
    if DiffInHours(now, due) >= 24 then WithdrawBefore24 else WithdrawAfter24
  }

  /** `handleTranslatorCancellation`: a translator may cancel only while the hour difference exceeds 24. */
  predicate TranslatorMayCancel(due: int, now: int) {
    DiffInHours(due, now) > 24
  }

  /** Because hours are truncated, "more than 24 hours" means at least 25 whole hours apart. */
  lemma TranslatorWindow(due: int, now: int)
    ensures TranslatorMayCancel(due, now) <==> (if due <= now then now - due else due - now) >= 25 * SecondsPerHour
  {
    DiffAtLeast(due, now, 25);
  }

  /** A customer withdrawing ten hours ahead gets `withdrawafter24`. */
  lemma TenHoursAheadIsLate(now: int)
    ensures CustomerWithdrawStatus(now + 10 * SecondsPerHour, now) == WithdrawAfter24
  {
  }

  /** The difference is absolute: a job 30 hours past due is withdrawn "before 24". */
  lemma PastDueCountsAsEarly(now: int)
    ensures CustomerWithdrawStatus(now - 30 * SecondsPerHour, now) == WithdrawBefore24
  {
  }

  /**
   * The two windows differ: wherever a translator may cancel, a customer's
   * withdrawal counts as early, but between 24 and 25 hours ahead only the
   * customer can withdraw.
   */
  lemma TranslatorWindowWithinCustomers(due: int, now: int)
    ensures TranslatorMayCancel(due, now) ==> CustomerWithdrawStatus(due, now) == WithdrawBefore24
    ensures var halfPast := now + Day + SecondsPerHour / 2;
            CustomerWithdrawStatus(halfPast, now) == WithdrawBefore24 && !TranslatorMayCancel(halfPast, now)
  {
    TranslatorWindow(due, now);
    var halfPast := now + Day + SecondsPerHour / 2;
    TranslatorWindow(halfPast, now);
  }

  /** The link row an accepting translator gets (the row `insertTranslatorJobRel` writes). */
  function AcceptLink(jobId: int, userId: int, now: int): (a: Assignment)
    ensures IsActive(a) && a.jobId == jobId && a.userId == Some(userId)
  {
    Assignment(jobId, Some(userId), now, None, None, None)
  }

  /**
   * Accepting keeps at most one active translator on the job exactly when
   * the job had none before: accepting a pending job that still has an open
   * row leaves two active translators.
   */
  lemma AcceptKeepsSingleActiveIff(rels: seq<Assignment>, jobId: int, userId: int, now: int)
    ensures ActiveCount(rels + [AcceptLink(jobId, userId, now)], jobId) == ActiveCount(rels, jobId) + 1
    ensures AtMostOneActive(rels + [AcceptLink(jobId, userId, now)], jobId) <==> ActiveCount(rels, jobId) == 0
  {
    ActiveCountAppend(rels, AcceptLink(jobId, userId, now), jobId);
  }

  /** A concrete state: a pending job whose first translator's row is still open gains a second active row. */
  lemma AcceptCanDuplicateActive()
    ensures var rels := [AcceptLink(7, 1, 0)];
            ActiveCount(rels, 7) == 1 && ActiveCount(rels + [AcceptLink(7, 2, 5)], 7) == 2
  {
    var rels := [AcceptLink(7, 1, 0)];
    AcceptKeepsSingleActiveIff(rels, 7, 2, 5);
    assert ActiveCount(rels, 7) == 1 by {
      ActiveCountAppend([], AcceptLink(7, 1, 0), 7);
      assert [] + [AcceptLink(7, 1, 0)] == rels;
    }
  }

  /** What `changeTranslator` decides from the current link row and the request. */
  datatype TranslatorChange =
    | KeepTranslator
    | Replace(row: nat, userId: int)  // cancel row `row`, add a copy of it for `userId`
    | Create(userId: int)             // append a new row for `userId`

  /** The translator id the request names: the e-mail's owner when an e-mail is given, else the id. */
  function RequestedTranslator(translator: int, email: Option<string>, userByEmail: string -> int): int {
    if !LooseEqualsEmpty(email) then userByEmail(email.value) else translator
  }

  /** `changeTranslator`'s two branches, with `current` as `getCurrentTranslator` finds it. */
  function DecideTranslatorChange(rels: seq<Assignment>, current: Option<nat>, translator: Option<int>,
                                  email: Option<string>, userByEmail: string -> int): (c: TranslatorChange)
    requires current.Some? ==> current.value < |rels|
    ensures c.Replace? ==> current == Some(c.row)
    ensures c.Create? ==> current.None?
    ensures translator.None? ==> c.KeepTranslator?
    ensures c.Replace? <==>
              current.Some? && translator.Some? && translator.value != 0
              && (rels[current.value].userId != Some(translator.value) || !LooseEqualsEmpty(email))
    ensures c.Create? <==>
              current.None? && translator.Some? && (translator.value != 0 || !LooseEqualsEmpty(email))
    ensures !c.KeepTranslator? ==> c.userId == RequestedTranslator(translator.value, email, userByEmail)
  {
    var emailGiven := !LooseEqualsEmpty(email);
    if current.Some? && translator.Some?
       && (rels[current.value].userId != Some(translator.value) || emailGiven) && translator.value != 0 then
      Replace(current.value, RequestedTranslator(translator.value, email, userByEmail))
    else if current.None? && translator.Some? && (translator.value != 0 || emailGiven) then
      Create(RequestedTranslator(translator.value, email, userByEmail))
    else KeepTranslator
  }

  /** The rows after applying a decision, and the new row when there is one. */
  function ApplyTranslatorChange(rels: seq<Assignment>, jobId: int, c: TranslatorChange, now: int): (r: (seq<Assignment>, Option<Assignment>))
    requires c.Replace? ==> c.row < |rels|
    ensures c.KeepTranslator? <==> r.1.None?
    ensures r.1.Some? ==> r.1.value.userId == Some(c.userId) && r.1.value in r.0
    ensures c.KeepTranslator? ==> r.0 == rels
    ensures !c.KeepTranslator? ==> |r.0| == |rels| + 1 && r.0[|rels|] == r.1.value
    ensures c.Replace? ==> r.0[c.row] == rels[c.row].(cancelAt := Some(now))
    ensures c.Replace? ==> forall j :: 0 <= j < |rels| && j != c.row ==> r.0[j] == rels[j]
    ensures c.Replace? ==> r.1 == Some(rels[c.row].(userId := Some(c.userId)))
    ensures c.Create? ==> r.0[..|rels|] == rels
    ensures c.Create? ==> r.1 == Some(Assignment(jobId, Some(c.userId), now, None, None, None)) && IsActive(r.1.value)
  {
    match c
    case KeepTranslator => (rels, None)
    case Replace(i, t) =>
      var added := rels[i].(userId := Some(t));
      (rels[i := rels[i].(cancelAt := Some(now))] + [added], Some(added))
    case Create(t) =>
      var added := Assignment(jobId, Some(t), now, None, None, None);
      (rels + [added], Some(added))
  }

  /**
   * Changing the translator never adds an active translator to a job that
   * had one: a replacement cancels the current row and copies it, so the
   * active count is unchanged; a creation happens only when no row of the
   * job is active, and leaves exactly one.
   */
  lemma {:induction false} TranslatorChangeKeepsSingleActive(rels: seq<Assignment>, jobId: int, translator: Option<int>,
                                                            email: Option<string>, userByEmail: string -> int, now: int)
    ensures var current := CurrentTranslator(rels, jobId);
            var c := DecideTranslatorChange(rels, current, translator, email, userByEmail);
            var after := ApplyTranslatorChange(rels, jobId, c, now).0;
            && (c.Replace? ==> ActiveCount(after, jobId) == ActiveCount(rels, jobId))
            && (c.Create? ==> ActiveCount(after, jobId) == 1)
            && (AtMostOneActive(rels, jobId) ==> AtMostOneActive(after, jobId))
  {
    var current := CurrentTranslator(rels, jobId);
    var c := DecideTranslatorChange(rels, current, translator, email, userByEmail);
    match c
    case KeepTranslator =>
    case Replace(i, t) =>
      var cancelled := rels[i := rels[i].(cancelAt := Some(now))];
      ActiveCountUpdate(rels, i, rels[i].(cancelAt := Some(now)), jobId);
      ActiveCountAppend(cancelled, rels[i].(userId := Some(t)), jobId);
    case Create(t) =>
      ActiveCountZero(rels, jobId);
      ActiveCountAppend(rels, Assignment(jobId, Some(t), now, None, None, None), jobId);
  }

  /** Marks a link row completed, as `endJob`, `jobEnd` and `customerNotCall` do. */
  function CompleteRow(a: Assignment, now: int, completer: Option<int>): (r: Assignment)
    ensures !IsActive(r) && r.jobId == a.jobId && r.userId == a.userId
    ensures r.completedAt == Some(now) && r.completedBy == completer
    ensures r.cancelAt == a.cancelAt && r.createdAt == a.createdAt
  {
    a.(completedAt := Some(now), completedBy := completer)
  }

  /** Completing the job's active row removes exactly one active translator; with a single one, none is left. */
  lemma CompletingActiveRow(rels: seq<Assignment>, jobId: int, now: int, completer: Option<int>)
    requires ActiveTranslator(rels, jobId).Some?
    ensures var i := ActiveTranslator(rels, jobId).value;
            ActiveCount(rels[i := CompleteRow(rels[i], now, completer)], jobId) == ActiveCount(rels, jobId) - 1
    ensures var i := ActiveTranslator(rels, jobId).value;
            AtMostOneActive(rels, jobId) ==> ActiveCount(rels[i := CompleteRow(rels[i], now, completer)], jobId) == 0
  {
    var i := ActiveTranslator(rels, jobId).value;
    ActiveCountUpdate(rels, i, CompleteRow(rels[i], now, completer), jobId);
  }

  /** The placeholder link row a reopen appends: no translator, cancelled at once. */
  function ReopenPlaceholder(jobId: int, now: int): (a: Assignment)
    ensures !IsActive(a) && a.jobId == jobId && a.userId.None?
    ensures a.cancelAt == Some(now) && a.completedAt.None?
  {
    Assignment(jobId, None, now, Some(now), None, None)
  }

  /** The rows after a reopen: every open row of the old job cancelled, then the placeholder. */
  function ReopenedLinks(rels: seq<Assignment>, jobId: int, now: int): seq<Assignment> {
    CancelOpenLinks(rels, jobId, now) + [ReopenPlaceholder(jobId, now)]
  }

  /** After a reopen the old job has no active translator, and rows of other jobs are untouched. */
  lemma ReopenLeavesNoActive(rels: seq<Assignment>, jobId: int, now: int)
    ensures ActiveCount(ReopenedLinks(rels, jobId, now), jobId) == 0
    ensures |ReopenedLinks(rels, jobId, now)| == |rels| + 1
    ensures forall j :: 0 <= j < |rels| && rels[j].jobId != jobId ==> ReopenedLinks(rels, jobId, now)[j] == rels[j]
    ensures forall a :: a in ReopenedLinks(rels, jobId, now) && a.jobId == jobId ==> a.cancelAt.Some?
    ensures ReopenedLinks(rels, jobId, now)[|rels|] == ReopenPlaceholder(jobId, now)
  {
    CancelOpenLinksCloses(rels, jobId, now);
    ActiveCountAppend(CancelOpenLinks(rels, jobId, now), ReopenPlaceholder(jobId, now), jobId);
  }

  const ReopeningNote := "This booking is a reopening of booking #"

  /** The job a reopen of a timed-out booking creates: a copy under a new id, pending again. */
  function ReopenedCopy(job: Job, newId: int, userId: int, now: int, expiresAt: int): (j: Job)
    ensures j.id == newId && j.status == Pending && j.userId == userId
    ensures j.cust16HourEmail == 0 && j.cust48HourEmail == 0
    ensures j.adminComments.Some? && ReopeningNote <= j.adminComments.value
    ensures j.due == job.due && j.fromLanguageId == job.fromLanguageId && j.duration == job.duration
  {
    job.(id := newId, status := Pending, createdAt := now, willExpireAt := expiresAt, updatedAt := now, userId := userId,
         adminComments := Some(ReopeningNote + IntToString(job.id)), cust16HourEmail := 0, cust48HourEmail := 0)
  }

  /** The reopened copy names its origin: the booking number can be read back from its admin comment. */
  lemma ReopenedCopyNamesOrigin(job: Job, newId: int, userId: int, now: int, expiresAt: int)
    requires job.id >= 0
    ensures var c := ReopenedCopy(job, newId, userId, now, expiresAt).adminComments.value;
            ParseDigits(c[|ReopeningNote|..]) == job.id
  {
    var c := ReopenedCopy(job, newId, userId, now, expiresAt).adminComments.value;
    assert c[|ReopeningNote|..] == NatToString(job.id);
    ParseNatToString(job.id);
  }

  /** The job a reopen of any other booking writes back under the same id. */
  function ReopenedInPlace(job: Job, userId: int, now: int, expiresAt: int): (j: Job)
    ensures j.id == job.id && j.status == Pending && j.userId == userId
    ensures j.createdAt == now && j.updatedAt == now && j.willExpireAt == expiresAt
    ensures j.adminComments == job.adminComments && j.due == job.due
  {
    job.(status := Pending, createdAt := now, willExpireAt := expiresAt, updatedAt := now, userId := userId)
  }
}
