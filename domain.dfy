/**
 * The records the booking repository works on: a job (booking) row, a
 * translator-job link row ("assignment"), and the notices a mutation asks
 * the notification side to send once the job row is committed.
 */
module Domain {
  import opened Wrappers

  /** A booking status. Statuses stored or requested as text that are none of the known ones are kept verbatim. */
  datatype Status =
    | Pending
    | Assigned
    | Started
    | Completed
    | WithdrawBefore24
    | WithdrawAfter24
    | Timedout
    | NotCarriedOutCustomer
    | Unrecognised(name: string)

  function StatusName(s: Status): string {
    match s
    case Pending => "pending"
    case Assigned => "assigned"
    case Started => "started"
    case Completed => "completed"
    case WithdrawBefore24 => "withdrawbefore24"
    case WithdrawAfter24 => "withdrawafter24"
    case Timedout => "timedout"
    case NotCarriedOutCustomer => "not_carried_out_customer"
    case Unrecognised(name) => name
  }

  /** Reads a status string as stored in the job row or sent by the admin form. */
  function ParseStatus(name: string): (s: Status)
    ensures s.Unrecognised? ==> s.name == name
  {
    if name == "pending" then Pending
    else if name == "assigned" then Assigned
    else if name == "started" then Started
    else if name == "completed" then Completed
    else if name == "withdrawbefore24" then WithdrawBefore24
    else if name == "withdrawafter24" then WithdrawAfter24
    else if name == "timedout" then Timedout
    else if name == "not_carried_out_customer" then NotCarriedOutCustomer
    else Unrecognised(name)
  }

  /** A status value that is the reading of its own name (no `Unrecognised("pending")`). */
  predicate Canonical(s: Status) {
    s.Unrecognised? ==> ParseStatus(s.name).Unrecognised?
  }

  lemma NameOfParse(name: string)
    ensures StatusName(ParseStatus(name)) == name
    ensures Canonical(ParseStatus(name))
  {
  }

  lemma ParseOfName(s: Status)
    requires Canonical(s)
    ensures ParseStatus(StatusName(s)) == s
  {
  }

  /** Two canonical statuses are equal exactly when their stored strings are (PHP's `!==` on the column). */
  lemma NamesDistinguish(s: Status, t: Status)
    requires Canonical(s) && Canonical(t)
    ensures StatusName(s) == StatusName(t) <==> s == t
  {
    if StatusName(s) == StatusName(t) {
      ParseOfName(s);
      ParseOfName(t);
    }
  }

  /** A row of the jobs table, restricted to the columns the repository reads or writes. Instants are seconds. */
  datatype Job = Job(
    id: int,
    userId: int,                       // owning customer
    status: Status,
    due: int,
    immediate: string,                 // "yes" or "no"
    fromLanguageId: int,
    duration: int,                     // minutes
    gender: Option<string>,
    certified: Option<string>,
    jobType: string,                   // "paid", "rws" or "unpaid"
    customerPhoneType: string,
    customerPhysicalType: string,
    town: string,
    sessionTime: Option<string>,
    adminComments: Option<string>,
    reference: Option<string>,
    createdAt: int,
    updatedAt: int,
    willExpireAt: int,
    withdrawAt: Option<int>,
    endAt: Option<int>,
    emailSent: int,
    emailSentToVirpal: int,
    cust16HourEmail: int,
    cust48HourEmail: int)

  /** A row of the translator-job link table. `userId` is absent for the placeholder row written on reopen. */
  datatype Assignment = Assignment(
    jobId: int,
    userId: Option<int>,
    createdAt: int,
    cancelAt: Option<int>,
    completedAt: Option<int>,
    completedBy: Option<int>)

  /** Neither cancelled nor completed: the translator currently holding the job. */
  predicate IsActive(a: Assignment) {
    a.cancelAt.None? && a.completedAt.None?
  }

  /** Who a broadcast of a new suitable job leaves out: one user id, or the `'*'` argument. */
  datatype Exclusion = Wildcard | ExcludeUser(id: int)

  datatype PushKind = JobAccepted | JobCancelled

  /**
   * What a committed mutation asks the transports to do. Mail and push
   * bodies are not modelled, only who is addressed and about which job.
   */
  datatype Notice =
    | SuitableJob(jobId: int, exclude: Exclusion)
    | UserPush(kind: PushKind, userId: int, jobId: int, delayed: bool)
    | DateChanged(jobId: int)
    | TranslatorChanged(jobId: int, newTranslator: Assignment)
    | LanguageChanged(jobId: int, languageId: int)
}
