# Booking repository model

This project models the core of the booking back end of an interpreter-booking
service (`BookingRepository`), in Dafny. The modelled parts are:

- the lifecycle of a booking: a translator accepts it, a customer or a
  translator cancels it, the session ends or the customer does not call, an
  admin changes the translator, and an admin reopens the booking;
- the admin status-change handler table;
- the cancellation windows;
- the rules that decide which translators a new booking is offered to and
  whether each push is sent now or delayed;
- the small classification, validation and formatting helpers around them.

Time is integer seconds, and "now" is always a parameter. The stored state is
a `BookingRepository` class with four fields:

- the jobs table, keyed by id;
- the translator-job link rows, in table order;
- the next id that job creation hands out;
- an outbox of notices for the mail and push transports.

Its invariant keeps each job under its own id, below the next id, with a
status that reads back from the stored text (`Domain.Canonical`): a job is
never stored as an unrecognised text that happens to spell a known status,
so comparing statuses is comparing the stored strings, as the source does.

The model follows PHP 8 as it runs without an error handler that turns
warnings into exceptions: reading a property of `null` yields `null` with a
warning and the code carries on (so `endJob` on a missing job sees a null
status and reports success), while assigning a property on `null`, or
passing `null` or `'*'` to a non-nullable `int` parameter, throws.

Every operation loads a job, changes a working copy and commits it with
`Save`, as the repository does with Eloquent's `save()`. So "refused without
saving" can be stated and proved. When the source would raise an error after
some writes, the operation returns `Aborted` and keeps those writes. The one
exception is the `'*'` passed to an `int` parameter by `handlePendingStatus`
and by the broadcast after a reopen; see the `'*'` line under "## Left out".

Modules, in dependency order:

- `Wrappers`: the `Option` type.
- `PhpValues`: PHP's `empty`, loose `== ''`, truthiness, ASCII `strtolower`,
  integer-to-string conversion, `%02d`, and Carbon's `diffInHours`.
- `Domain`: statuses, jobs, link rows and notices.
- `Classify`: the job/translator type maps, the certification levels,
  booking validation, the `job_for` labels, and change detection.
- `Formatting`: `convertToHoursMins`, the push and SMS texts, the push
  request fields, and the OR-joined user tags.
- `Dispatch`: eligibility and the immediate/delayed split of a broadcast,
  the town filter, and the potential-jobs listing.
- `Assignments`: queries and bulk updates on link rows, including the
  count of active translators per job.
- `StatusTable`: the status-change handlers as functions from a working copy
  and a request to a `Step`. A `Step` records what the handler returns,
  the copy it leaves, whether it saved, and what it broadcast.
- `Lifecycle`: the cancellation windows, plus the link rows and jobs that
  accepting, changing the translator, ending and reopening write.
- `Booking`: the `BookingRepository` class, whose methods are proved
  against the functions above.

Behaviour of the code that the model keeps as written, although it may not
be intended:

- Customer cancellation uses Carbon's absolute, truncated hour difference.
  Withdrawing 10 hours ahead of the due time gives `withdrawafter24`
  (`Lifecycle.TenHoursAheadIsLate`). A booking 30 hours past due counts as
  withdrawn "before 24" (`Lifecycle.PastDueCountsAsEarly`).
- A translator may cancel only at 25 or more whole hours' distance
  (`Lifecycle.TranslatorWindow`).
- A status-change request for `completed` succeeds and saves without
  demanding a session time.
- A request for `pending` reports success without saving anything.
- Requests for `assigned` and `withdrawafter24` are always refused. The
  handler is chosen by the requested status, while those two handlers act
  only on other requested values (`StatusTable.DispatchByKey`,
  `StatusTable.AssignedAndWithdrawAfter24Refused`).
- `changeStatus` has no caller in the file. `updateJob` does not go through
  it, and the model keeps it as a separate operation.
- Accepting does not check for an existing active translator. A pending job
  that still has an open link row gets a second active translator
  (`Lifecycle.AcceptCanDuplicateActive`).
- The acceptance push goes to the accepting translator (`$user`), not to
  the customer.
- The class declares `handleTranslatorCancellation` twice (lines 2133 and
  2805), which PHP rejects. The model names the first
  `HandleTranslatorCancellation` and the second `CancelReopenedLinks`.
- Only users who switched notifications off are eligible for a broadcast,
  because line 761 negates `isNeedToSendPush`. The model keeps this
  literally (`Dispatch.EligibleOnlyIfOptedOut`).
- The town filter counts an empty phone type as "no phone", but the SMS
  template choice does not: such an in-person job gets the phone-job SMS,
  which names no town (`Dispatch.EmptyPhoneTypeGetsPhoneSms`).

## Model

| member | source | states |
|---|---|---|
| PhpValues.EmptyVersusLoose | refactor/app/Repository/BookingRepository.php:1563 | a loose `== ''` match implies `empty`; the two tests differ exactly on `"0"` |
| PhpValues.Lower | refactor/app/Repository/BookingRepository.php:1952-1968 | lower-casing keeps the length and maps each character by the ASCII rule |
| PhpValues.LowerIdempotent | refactor/app/Repository/BookingRepository.php:1952-1968 | lower-casing twice equals lower-casing once |
| PhpValues.ParseNatToString | refactor/app/Repository/BookingRepository.php:2790 | the decimal text of a number reads back as that number |
| PhpValues.NatToStringInjective | refactor/app/Repository/BookingRepository.php:2790 | different numbers have different decimal texts |
| PhpValues.Pad2Value | refactor/app/Repository/BookingRepository.php:2826-2838 | `%02d` text reads back as the number, and has exactly two digits below 100 |
| PhpValues.DiffInHours | refactor/app/Repository/BookingRepository.php:2113 | the whole-hour difference brackets the absolute difference in seconds |
| PhpValues.DiffInHoursSymmetric | refactor/app/Repository/BookingRepository.php:2135 | the hour difference does not depend on argument order |
| PhpValues.DiffAtLeast | refactor/app/Repository/BookingRepository.php:2113 | at least k whole hours apart iff at least k*3600 seconds apart |
| Domain.ParseStatus | refactor/app/Repository/BookingRepository.php:1310 | an unknown status text is kept verbatim |
| Domain.NameOfParse | refactor/app/Repository/BookingRepository.php:1310 | reading a status text and writing it back gives the same text |
| Domain.ParseOfName | refactor/app/Repository/BookingRepository.php:1274 | a canonical status survives writing and reading back |
| Domain.NamesDistinguish | refactor/app/Repository/BookingRepository.php:1274 | comparing stored status texts is comparing statuses |
| Classify.GetJobType | refactor/app/Repository/BookingRepository.php:348-362 | the job type is a known one; `rws` iff consumer `rwsconsumer`, `unpaid` iff `ngo` |
| Classify.JobTypeForTranslator | refactor/app/Repository/BookingRepository.php:690-701 | always one of the three job types |
| Classify.TranslatorTypeForJob | refactor/app/Repository/BookingRepository.php:1104-1113 | always one of the three translator types |
| Classify.JobTypeRoundTrip | refactor/app/Repository/BookingRepository.php:690-701 | the two maps are mutually inverse on the known types |
| Classify.JobTypeDefaults | refactor/app/Repository/BookingRepository.php:1104-1113 | unknown job type maps to `professional`, unknown translator type to `unpaid` |
| Classify.VolunteerNeverPaid | refactor/app/Repository/BookingRepository.php:1104-1113 | paid jobs never go to volunteers and volunteers never see paid jobs |
| Classify.LevelsForCertification | refactor/app/Repository/BookingRepository.php:1121-1140 | a non-empty subset of the five levels |
| Classify.LevelsByCase | refactor/app/Repository/BookingRepository.php:1121-1140 | all five levels without certification; the three certified ones for `yes`/`both`; law or health alone for those; layman and courses for every other truthy value, `no` included |
| Classify.PotentialTranslatorsQuery | refactor/app/Repository/BookingRepository.php:1088-1096 | blacklist excluded; language and gender passed on; levels are those of the job's certification; translator type is the job type's, `professional` for an unknown job type, and maps back to the job type |
| Classify.ValidateJobData | refactor/app/Repository/BookingRepository.php:299-316 | accepted iff every demanded field is present; each of `due_date`, `from_language_id` and `duration` is named iff it is the first missing one in that order |
| Classify.DueDateDemandedOnlyForNo | refactor/app/Repository/BookingRepository.php:299-316 | an `immediate` value other than `no` needs no due date |
| Classify.GetJobFor | refactor/app/Repository/BookingRepository.php:367-386 | each label is present iff its key was in the request |
| Classify.GetJobForOrdered | refactor/app/Repository/BookingRepository.php:367-386 | the labels come in fixed order, without repeats |
| Classify.GetJobForArray | refactor/app/Repository/BookingRepository.php:1857-1878 | a set gender gives the first label; a set certification gives a label; empty iff neither is set |
| Classify.JobForAgrees | refactor/app/Repository/BookingRepository.php:1857-1878 | a stored job's labels equal those of the request it was created from |
| Classify.CategorizeJob | refactor/app/Repository/BookingRepository.php:185-192 | emergency bookings go to the first list, all others to the second, nothing lost |
| Classify.ChangeDue | refactor/app/Repository/BookingRepository.php:1663-1677 | a change is reported and logged iff the due time differs |
| Classify.ChangeLanguage | refactor/app/Repository/BookingRepository.php:1686-1696 | a change is reported iff the language differs; the copy carries the new language |
| Formatting.ConvertToHoursMins | refactor/app/Repository/BookingRepository.php:2826-2838 | minutes below an hour, `1h` at sixty, padded hours and minutes above |
| Formatting.HoursMinsDenotes | refactor/app/Repository/BookingRepository.php:2826-2838 | above an hour the printed hours and minutes add back to the duration |
| Formatting.MinutesOnlyDenotes | refactor/app/Repository/BookingRepository.php:2826-2838 | below an hour the printed minutes read back as the duration |
| Formatting.NotificationMessage | refactor/app/Repository/BookingRepository.php:835-841 | the text opens with the normal or emergency phrase; only a normal booking ends with the due time |
| Formatting.SmsTemplateFor | refactor/app/Repository/BookingRepository.php:898-902 | the physical template iff physical `yes` and phone `no` |
| Formatting.SmsTown | refactor/app/Repository/BookingRepository.php:893 | the job's own city when truthy, else the customer's; a truthy town iff either city is truthy |
| Formatting.PrepareSmsMessage | refactor/app/Repository/BookingRepository.php:887-903 | the job id and the `convertToHoursMins` duration; the physical-job message, naming the chosen town, iff the template choice is physical |
| Dispatch.PhysicalSmsOnlyForPhysicalOnly | refactor/app/Repository/BookingRepository.php:898-902 | the physical-job SMS iff the town rule's physical-only test holds and the phone type is `no` |
| Dispatch.EmptyPhoneTypeGetsPhoneSms | refactor/app/Repository/BookingRepository.php:898-902 | a job with an empty phone type and physical `yes` is physical-only for the town rule (717-719) yet gets the phone-job SMS |
| Formatting.PreparePushFields | refactor/app/Repository/BookingRepository.php:995-1023 | `send_after` is present iff the push is delayed; payload, tags and text passed through |
| Formatting.PushSound | refactor/app/Repository/BookingRepository.php:995-1023 | only suitable-job pushes get a booking sound, the emergency one unless `immediate` is `no` |
| Formatting.Tags | refactor/app/Repository/BookingRepository.php:1952-1968 | one lower-cased e-mail tag per user, in order |
| Formatting.JoinAppend | refactor/app/Repository/BookingRepository.php:1952-1968 | appending a part adds one separator and the part |
| Formatting.GetUserTagsString | refactor/app/Repository/BookingRepository.php:1952-1968 | the loop's text is the bracketed OR-join of the tags; `[]` iff there are no users |
| Dispatch.EligibleOnlyIfOptedOut | refactor/app/Repository/BookingRepository.php:758-763 | an eligible user has switched notifications off |
| Dispatch.CountOfPositive | refactor/app/Repository/BookingRepository.php:774-782 | a job is counted for a user iff it is among the user's potential jobs |
| Dispatch.ContributionMembers | refactor/app/Repository/BookingRepository.php:774-782 | a user contributes only itself, and only when admitted |
| Dispatch.BatchMembership | refactor/app/Repository/BookingRepository.php:793-805 | a user is in the immediate or delayed batch iff admitted and the delay rule says so |
| Dispatch.ExactlyOneBatch | refactor/app/Repository/BookingRepository.php:912-927 | an admitted user is in exactly one batch, the delayed one iff night and `not_get_nighttime` is `yes` |
| Dispatch.BatchTranslators | refactor/app/Repository/BookingRepository.php:735-748 | the loop builds exactly the two batches |
| Dispatch.SendNotificationTranslator | refactor/app/Repository/BookingRepository.php:815-827 | two pushes with the batches' tags; only the delayed one carries `send_after` |
| Dispatch.KeptByTownMembers | refactor/app/Repository/BookingRepository.php:710-726 | a job is kept iff the town rule does not exclude it |
| Dispatch.FilterJobsByTown | refactor/app/Repository/BookingRepository.php:710-726 | the loop keeps exactly those jobs, in order |
| Dispatch.GetPotentialJobs | refactor/app/Repository/BookingRepository.php:2216-2250 | the job type follows the translator type; the result is the order-preserving filter `OfferedJobs` of the queried jobs, one entry per kept job; a queried job is offered iff it is not a specific job this translator cannot accept and the town rule keeps it |
| Assignments.First | refactor/app/Repository/BookingRepository.php:1214 | the first row passing the filter, or none when no row passes |
| Assignments.CurrentTranslator | refactor/app/Repository/BookingRepository.php:1212-1221 | the first uncancelled row of the job, else its first completed row; none iff every row is cancelled and not completed |
| Assignments.ActiveTranslator | refactor/app/Repository/BookingRepository.php:640-643 | the first active row of the job, or none iff no row is active |
| Assignments.CancelOpenLinks | refactor/app/Repository/BookingRepository.php:2808 | each row becomes its stamped version, and the length is kept |
| Assignments.CancelOpenLinksCloses | refactor/app/Repository/BookingRepository.php:2808 | every row of the job is cancelled; other jobs' and already cancelled rows unchanged; no active row left |
| Assignments.DeleteLinksMembers | refactor/app/Repository/BookingRepository.php:2161 | a row survives iff it is not the translator's row on the job |
| StatusTable.HandlePendingStatus | refactor/app/Repository/BookingRepository.php:1354-1370 | resets creation time and mail counters, saves, broadcasts to all |
| StatusTable.RefusalNeverSaves | refactor/app/Repository/BookingRepository.php:1326-1614 | every handler path that returns false returns before saving |
| StatusTable.SameStatusUnchanged | refactor/app/Repository/BookingRepository.php:1268-1289 | requesting the current status changes nothing |
| StatusTable.UnknownKeyRefused | refactor/app/Repository/BookingRepository.php:1299-1316 | a status outside the six handler keys is refused, nothing saved |
| StatusTable.AssignedAndWithdrawAfter24Refused | refactor/app/Repository/BookingRepository.php:1559-1614 | requests for `assigned` or `withdrawafter24` are always refused |
| StatusTable.DispatchByKey | refactor/app/Repository/BookingRepository.php:1299-1316 | outcome per reachable key; no dispatched request reaches the pending-reset branch |
| StatusTable.ChangeLogged | refactor/app/Repository/BookingRepository.php:1268-1289 | a change is reported iff logged; the log pairs the old status with the requested one, which the job now has |
| Lifecycle.CustomerWithdrawStatus | refactor/app/Repository/BookingRepository.php:2108-2119 | `withdrawbefore24` iff at least 24 hours from due, in either direction, else `withdrawafter24` |
| Lifecycle.TranslatorWindow | refactor/app/Repository/BookingRepository.php:2133-2143 | a translator may cancel iff at least 25 hours from due |
| Lifecycle.TenHoursAheadIsLate | refactor/app/Repository/BookingRepository.php:2108-2119 | withdrawing ten hours ahead is `withdrawafter24` |
| Lifecycle.PastDueCountsAsEarly | refactor/app/Repository/BookingRepository.php:2108-2119 | a booking 30 hours past due is withdrawn "before 24" |
| Lifecycle.TranslatorWindowWithinCustomers | refactor/app/Repository/BookingRepository.php:2133-2143 | the translator window lies inside the early-withdrawal window; 24.5 hours ahead separates them |
| Lifecycle.AcceptLink | refactor/app/Repository/BookingRepository.php:2023-2031 | the accepting translator's link row is active |
| Lifecycle.AcceptKeepsSingleActiveIff | refactor/app/Repository/BookingRepository.php:2023-2031 | accepting adds one active translator; at most one remains iff there was none |
| Lifecycle.AcceptCanDuplicateActive | refactor/app/Repository/BookingRepository.php:2023-2031 | a concrete job ends with two active translators after an accept |
| Lifecycle.DecideTranslatorChange | refactor/app/Repository/BookingRepository.php:1622-1656 | replace iff there is a current row and a non-zero translator that differs from its translator or an e-mail is given; create iff there is no current row and a non-zero translator or an e-mail; the new translator is the e-mail's owner, else the given id |
| Lifecycle.ApplyTranslatorChange | refactor/app/Repository/BookingRepository.php:1622-1656 | keeping leaves the rows as they are; a replacement stamps `cancel_at = now` on the current row, keeps every other row and appends a copy for the new translator; a creation appends a fresh active row |
| Lifecycle.TranslatorChangeKeepsSingleActive | refactor/app/Repository/BookingRepository.php:1622-1656 | replacing keeps the active count, creating leaves one; at most one active is preserved |
| Lifecycle.CompleteRow | refactor/app/Repository/BookingRepository.php:651-657 | `completed_at = now` and `completed_by` the completer; the row is no longer active and keeps its job, translator and `cancel_at` |
| Lifecycle.CompletingActiveRow | refactor/app/Repository/BookingRepository.php:2252-2314 | completing the active row removes one active translator, leaving none when there was one |
| Lifecycle.ReopenPlaceholder | refactor/app/Repository/BookingRepository.php:2805-2817 | the placeholder row has no translator and carries `cancel_at = now` |
| Lifecycle.ReopenLeavesNoActive | refactor/app/Repository/BookingRepository.php:2805-2817 | after a reopen no row of the old job has a null `cancel_at`, the placeholder included, so none is active; other jobs' rows untouched |
| Lifecycle.ReopenedCopy | refactor/app/Repository/BookingRepository.php:2780-2797 | the copy has the new id, is pending, belongs to the reopening user, and has its reminder flags cleared and the reopening note |
| Lifecycle.ReopenedCopyNamesOrigin | refactor/app/Repository/BookingRepository.php:2790 | the old booking number reads back from the copy's admin comment |
| Lifecycle.ReopenedInPlace | refactor/app/Repository/BookingRepository.php:2780-2797 | same id, pending, new times and owner, comment and due kept |
| Booking.BookedAtMessage | refactor/app/Repository/BookingRepository.php:1991-2010 | the already-booked refusal of accepting by id |
| Booking.TakenMessage | refactor/app/Repository/BookingRepository.php:1991-2010 | the refusal when another translator was first |
| Booking.PushFor | refactor/app/Repository/BookingRepository.php:2050-2061 | a push is queued iff the user accepts pushes, delayed per the night rule |
| Booking.ChangeNotices | refactor/app/Repository/BookingRepository.php:1244-1257 | one notice per reported change, each present iff its change was reported |
| Booking.BookingRepository.Save | refactor/app/Repository/BookingRepository.php:2027 | the working copy replaces the stored job, nothing else changes |
| Booking.BookingRepository.AssignJobToTranslator | refactor/app/Repository/BookingRepository.php:2023-2031 | succeeds iff pending and the link is written; then assigned plus one link row, else nothing changes |
| Booking.BookingRepository.AcceptJob | refactor/app/Repository/BookingRepository.php:1971-1989 | not found, already booked, or refused: nothing changes; on success assigned, link row, push, one more active translator |
| Booking.BookingRepository.AcceptJobWithId | refactor/app/Repository/BookingRepository.php:1991-2010 | the same state change as accepting, with its own refusal texts |
| Booking.BookingRepository.HandlePendingStatus | refactor/app/Repository/BookingRepository.php:1354-1370 | agrees with `StatusTable.HandlePendingStatus`, and the store changes only when it saves |
| Booking.BookingRepository.ChangeTimedoutStatus | refactor/app/Repository/BookingRepository.php:1326-1343 | agrees with `StatusTable.TimedoutHandler`, saving only when it saves |
| Booking.BookingRepository.ChangeCompletedStatus | refactor/app/Repository/BookingRepository.php:1397-1412 | agrees with `StatusTable.CompletedHandler` |
| Booking.BookingRepository.HandleCompletedJob | refactor/app/Repository/BookingRepository.php:1448-1468 | agrees with `StatusTable.HandleCompletedJob` |
| Booking.BookingRepository.ChangeStartedStatus | refactor/app/Repository/BookingRepository.php:1421-1439 | agrees with `StatusTable.StartedHandler` |
| Booking.BookingRepository.ChangePendingStatus | refactor/app/Repository/BookingRepository.php:1479-1505 | agrees with `StatusTable.PendingHandler`, including success without saving |
| Booking.BookingRepository.ChangeWithdrawafter24Status | refactor/app/Repository/BookingRepository.php:1559-1569 | agrees with `StatusTable.Withdrawafter24Handler` |
| Booking.BookingRepository.ChangeAssignedStatus | refactor/app/Repository/BookingRepository.php:1576-1614 | agrees with `StatusTable.AssignedHandler` |
| Booking.BookingRepository.ProcessStatusChange | refactor/app/Repository/BookingRepository.php:1299-1316 | agrees with `StatusTable.ProcessStatusChange` |
| Booking.BookingRepository.ChangeStatus | refactor/app/Repository/BookingRepository.php:1268-1289 | the reported change and the stored jobs agree with `StatusTable.ChangeStatus` |
| Booking.BookingRepository.CancelJobAjax | refactor/app/Repository/BookingRepository.php:2088-2103 | not found changes nothing; a customer withdraws per the 24-hour rule; a translator cancels inside the window or is refused; the next job id never changes |
| Booking.BookingRepository.HandleCustomerCancellation | refactor/app/Repository/BookingRepository.php:2108-2128 | stamps the withdrawal, sets the early or late status, pushes to the assigned translator |
| Booking.BookingRepository.HandleTranslatorCancellation | refactor/app/Repository/BookingRepository.php:2133-2143 | outside the window: refusal with the phone message and no change |
| Booking.BookingRepository.ProcessTranslatorCancellation | refactor/app/Repository/BookingRepository.php:2148-2170 | pushes to the customer (the job's owner), sets pending with new creation and expiry, deletes the translator's links, broadcasts excluding them |
| Booking.BookingRepository.EndJob | refactor/app/Repository/BookingRepository.php:2252-2314 | only a started job is completed; the active row is completed by the posting user, or the call aborts after the job save |
| Booking.BookingRepository.JobEnd | refactor/app/Repository/BookingRepository.php:569-591 | completes any found job, then its active row, aborting after the job save when there is none |
| Booking.BookingRepository.CustomerNotCall | refactor/app/Repository/BookingRepository.php:2317-2338 | with an active row: the job is not carried out and the row completed by its own translator; otherwise nothing is written |
| Booking.BookingRepository.ChangeTranslator | refactor/app/Repository/BookingRepository.php:1622-1656 | the link rows become those of `Lifecycle.ApplyTranslatorChange`: on a replacement the current row gets `cancel_at = now` and its copy for the requested translator is appended, other rows kept; otherwise a new row or no change |
| Booking.BookingRepository.UpdateJob | refactor/app/Repository/BookingRepository.php:1161-1204 | translator change applied; due, language, comment and reference stored; notices only for a future due; at most one active translator kept |
| Booking.BookingRepository.HandleJobStatus | refactor/app/Repository/BookingRepository.php:2780-2797 | a timed-out job is copied under a fresh id; any other is reopened in place |
| Booking.BookingRepository.CancelReopenedLinks | refactor/app/Repository/BookingRepository.php:2805-2817 | open rows of the old job cancelled and the placeholder appended |
| Booking.BookingRepository.Reopen | refactor/app/Repository/BookingRepository.php:2723-2747 | job reopened or copied, no row of the old job left with a null `cancel_at`, broadcast to all for the resulting job; the next job id advances by one only for a timed-out copy |

## Left out

- Mail, push and SMS transports, event firing and logging (`mailer->send`, `sendPushViaCurl`, `Event::fire`, the loggers). Notices in the outbox stand for them: who is addressed and about which job, not the message bodies.
- Mails inside the status handlers and `handleAssignedJob`. The customer and translator lookups those mails do are not modelled. Only the writes and the returned values are. `endJob`, `jobEnd` and `customerNotCall` do model the failure when the job has no active row.
- Listing, history, search and admin reports: `getUsersJobs`, `getUsersJobsHistory`, `getAll`, `alerts`, `bookingExpireNoAccepted`, `userLoginFailed`, `ignore*`. They build database queries.
- Booking creation and its mail: `store`, `prepareJobData`, `getDueDate` and `storeJobEmail`. Only their pure helpers are modelled: `validateJobData`, `getJobType` and `getJobFor`.
- `jobToData` builds the push payload; it is called by `store`, `handlePendingStatus` (1366), `handleAssignedJob` (1520) and `processTranslatorCancellation` (2164). Its payload is not modelled, and every broadcast after it is modelled as if it returned.
- `getCertifiedJobFor` has no caller in the file.
- `sendChangedTranslatorNotification`, `sendChangedLangNotification`, `sendExpiredNotification`, `sendNotificationChangePending` and `sendSMSNotificationToTranslator` only compose messages. The SMS template choice and town are modelled.
- Date parsing and formatting (`date_create`, `date_diff`, Carbon formats). The session-time text of `endJob` and `jobEnd` is a parameter, and instants are integer seconds.
- `TeHelper::willExpireAt`, `Job::checkTowns`, `checkParticularJob`, `assignedToPaticularTranslator`, `getUsermeta` and `DateTimeHelper::isNightTime` are function or value parameters. Their bodies are not part of this model.
- `Job::isTranslatorAlreadyBooked` and `Job::insertTranslatorJobRel` are boolean parameters. A successful insert is modelled as appending one active link row.
- `Job::getJobsAssignedTranslatorDetail` and the job's owner are optional user ids given to the cancellation operations.
- `Job::deleteTranslatorJobRel` is modelled as deleting the translator's rows on the job.
- Booking.BookingRepository.ProcessTranslatorCancellation: assumes `jobToData` (2164) returns. For a job that is not immediate, `getDueDate` (336-343) reads `due_date` and `due_time` off the job model, which is not part of this model; if it threw, the save and the link deletion would stand but no broadcast would be queued, while the model queues `SuitableJob` and returns `Success`.
- Booking.BookingRepository.HandlePendingStatus: assumes, like `StatusTable.HandlePendingStatus`, that `jobToData` (1366) returns before the broadcast.
- Booking.BookingRepository.ProcessTranslatorCancellation: with no assigned translator, `$translator->id` reads as `null`; the source passes it to `deleteTranslatorJobRel` and then to the non-nullable `int` parameter of `sendNotificationTranslator` (735), which throws. The model stops with `Aborted` after saving the job and queueing the customer push. What the deletion would do with a null id is not modelled.
- Booking.BookingRepository.ChangeTranslator: the e-mail lookup (`User::where('email', …)->first()->id`, 1629 and 1642) is a total function from e-mail to user id. When no user has the e-mail, reading `id` of `null` yields `null`, and the source goes on to write a link row with a null `user_id` (1630-1633 or 1643); the model never produces such a row.
- Booking.BookingRepository.UpdateJob: the notices carry the job and the new translator or language only. The source reads the old due time and the old translator from keys (`old_time`, `old_translator`) that `changeDue` and `changeTranslator` never set, so those arguments are null.
- `handlePendingStatus` and `sendNotificationByAdminCancelJob` pass `'*'` to an `int` parameter, which PHP rejects with a type error. The model treats `'*'` as excluding nobody (`Wildcard`).
- Booking.BookingRepository.Reopen: the reopening update also carries `job_id` and `cancel_at` keys into the jobs table, and the copy carries the old row's `id`. The model writes only the job's own columns and gives the copy the next free id.
- Booking.BookingRepository.Reopen: the broadcast's `findOrFail` on the resulting job always succeeds in the model, because that job was just written.
- Requests missing a key that the source reads with `$data[...]`: an absent optional field is `None`. The warnings PHP raises for absent keys are not modelled.
- The response list of a successful accept (`getPotentialJobs` of the user, JSON-encoded) and its success message are not modelled. `Success` stands for them.
- Integer widths: ids, durations and instants are unbounded integers. No PHP integer overflow is modelled.
- Concurrency and transactions: the source uses none, and the model is sequential.
