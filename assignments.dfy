/**
 * Queries and bulk updates over the translator-job link rows, in table
 * order: which row is the job's current translator, which is active, how
 * many are active, and the two bulk writes of reopen and of translator
 * withdrawal.
 */
module Assignments {
  import opened Wrappers
  import opened Domain

  /** The row filters the repository uses on a job's links. */
  datatype RowFilter =
    | NotCancelled(jobId: int)         // whereNull('cancel_at')
    | CompletedRow(jobId: int)         // whereNotNull('completed_at')
    | ActiveRow(jobId: int)            // where('completed_at', null)->where('cancel_at', null)

  predicate Matches(f: RowFilter, a: Assignment) {
    a.jobId == f.jobId &&
    match f
    case NotCancelled(_) => a.cancelAt.None?
    case CompletedRow(_) => a.completedAt.Some?
    case ActiveRow(_) => IsActive(a)
  }

  /** `->first()` over the rows from index `k` on that pass the filter. */
  function FirstFrom(rels: seq<Assignment>, f: RowFilter, k: nat): (r: Option<nat>)
    requires k <= |rels|
    ensures r.Some? ==> k <= r.value < |rels| && Matches(f, rels[r.value])
    ensures r.Some? ==> forall j :: k <= j < r.value ==> !Matches(f, rels[j])
    ensures r.None? ==> forall j :: k <= j < |rels| ==> !Matches(f, rels[j])
    decreases |rels| - k
  {
    if k == |rels| then None
    else if Matches(f, rels[k]) then Some(k)
    else FirstFrom(rels, f, k + 1)
  }

  function First(rels: seq<Assignment>, f: RowFilter): (r: Option<nat>)
    ensures r.Some? ==> r.value < |rels| && Matches(f, rels[r.value]) && forall j :: 0 <= j < r.value ==> !Matches(f, rels[j])
    ensures r.None? <==> forall j :: 0 <= j < |rels| ==> !Matches(f, rels[j])
  {
    FirstFrom(rels, f, 0)
  }

  /**
   * `getCurrentTranslator`: the job's first row without `cancel_at`, or else
   * its first completed row.
   */
  function CurrentTranslator(rels: seq<Assignment>, jobId: int): (r: Option<nat>)
    ensures r.Some? ==> r.value < |rels| && rels[r.value].jobId == jobId
    ensures r.Some? ==> rels[r.value].cancelAt.None? || rels[r.value].completedAt.Some?
    ensures r.None? <==> forall j :: 0 <= j < |rels| && rels[j].jobId == jobId ==> rels[j].cancelAt.Some? && rels[j].completedAt.None?
    ensures (exists j :: 0 <= j < |rels| && Matches(NotCancelled(jobId), rels[j])) ==> r == First(rels, NotCancelled(jobId))
    ensures (exists j :: 0 <= j < |rels| && Matches(NotCancelled(jobId), rels[j])) ==>
              r.Some? && rels[r.value].cancelAt.None?
              && forall j :: 0 <= j < r.value && rels[j].jobId == jobId ==> rels[j].cancelAt.Some?
    ensures (forall j :: 0 <= j < |rels| ==> !Matches(NotCancelled(jobId), rels[j])) && r.Some? ==>
              rels[r.value].completedAt.Some?
              && forall j :: 0 <= j < r.value && rels[j].jobId == jobId ==> rels[j].completedAt.None?
  {
    var open := First(rels, NotCancelled(jobId));
    if open.Some? then open else First(rels, CompletedRow(jobId))
  }

  /** The active row `endJob`, `jobEnd` and `customerNotCall` stamp. */
  function ActiveTranslator(rels: seq<Assignment>, jobId: int): (r: Option<nat>)
    ensures r.Some? ==> r.value < |rels| && rels[r.value].jobId == jobId && IsActive(rels[r.value])
    ensures r.None? <==> forall j :: 0 <= j < |rels| && rels[j].jobId == jobId ==> !IsActive(rels[j])
    ensures r.Some? ==> forall j :: 0 <= j < r.value && rels[j].jobId == jobId ==> !IsActive(rels[j])
  {
    First(rels, ActiveRow(jobId))
  }

  function ActiveCount(rels: seq<Assignment>, jobId: int): nat
    decreases |rels|
  {
    if rels == [] then 0
    else ActiveCount(rels[..|rels| - 1], jobId) + (if Matches(ActiveRow(jobId), rels[|rels| - 1]) then 1 else 0)
  }

  /** At most one link of the job is neither cancelled nor completed. */
  predicate AtMostOneActive(rels: seq<Assignment>, jobId: int) {
    ActiveCount(rels, jobId) <= 1
  }

  function Ind(b: bool): nat {
    if b then 1 else 0
  }

  lemma ActiveCountAppend(rels: seq<Assignment>, a: Assignment, jobId: int)
    ensures ActiveCount(rels + [a], jobId) == ActiveCount(rels, jobId) + Ind(Matches(ActiveRow(jobId), a))
  {
    assert (rels + [a])[..|rels|] == rels;
  }

  lemma {:induction false} ActiveCountUpdate(rels: seq<Assignment>, i: nat, a: Assignment, jobId: int)
    requires i < |rels|
    ensures ActiveCount(rels[i := a], jobId) + Ind(Matches(ActiveRow(jobId), rels[i]))
            == ActiveCount(rels, jobId) + Ind(Matches(ActiveRow(jobId), a))
    decreases |rels|
  {
    var n := |rels|;
    var updated := rels[i := a];
    if i == n - 1 {
      assert updated[..n - 1] == rels[..n - 1];
    } else {
      assert updated[..n - 1] == rels[..n - 1][i := a];
      ActiveCountUpdate(rels[..n - 1], i, a, jobId);
    }
  }

  lemma {:induction false} ActiveCountZero(rels: seq<Assignment>, jobId: int)
    ensures ActiveCount(rels, jobId) == 0 <==> forall j :: 0 <= j < |rels| ==> !Matches(ActiveRow(jobId), rels[j])
    decreases |rels|
  {
    if rels != [] {
      ActiveCountZero(rels[..|rels| - 1], jobId);
    }
  }

  /** A row of this job, stamped cancelled at `at` if it was not cancelled yet. */
  function StampCancel(a: Assignment, jobId: int, at: int): Assignment {
    if a.jobId == jobId && a.cancelAt.None? then a.(cancelAt := Some(at)) else a
  }

  /** The bulk update of reopen: every link of the job without `cancel_at` gets `cancel_at = at`. */
  function CancelOpenLinks(rels: seq<Assignment>, jobId: int, at: int): (r: seq<Assignment>)
    ensures |r| == |rels|
    ensures forall j :: 0 <= j < |r| ==> r[j] == StampCancel(rels[j], jobId, at)
  {
    seq(|rels|, j requires 0 <= j < |rels| => StampCancel(rels[j], jobId, at))
  }

  /** After the bulk update no link of the job is open, and the links of other jobs are untouched. */
  lemma CancelOpenLinksCloses(rels: seq<Assignment>, jobId: int, at: int)
    ensures forall j :: 0 <= j < |rels| && rels[j].jobId == jobId ==> CancelOpenLinks(rels, jobId, at)[j].cancelAt.Some?
    ensures forall j :: 0 <= j < |rels| && rels[j].jobId != jobId ==> CancelOpenLinks(rels, jobId, at)[j] == rels[j]
    ensures forall j :: 0 <= j < |rels| && rels[j].cancelAt.Some? ==> CancelOpenLinks(rels, jobId, at)[j] == rels[j]
    ensures ActiveCount(CancelOpenLinks(rels, jobId, at), jobId) == 0
  {
    ActiveCountZero(CancelOpenLinks(rels, jobId, at), jobId);
  }

  /** The links that remain after deleting those of `userId` on `jobId`. */
  function DeleteLinks(rels: seq<Assignment>, userId: int, jobId: int): (r: seq<Assignment>)
    ensures |r| <= |rels|
    decreases |rels|
  {
    if rels == [] then []
    else
      var last := rels[|rels| - 1];
      DeleteLinks(rels[..|rels| - 1], userId, jobId)
      + (if last.jobId == jobId && last.userId == Some(userId) then [] else [last])
  }

  lemma {:induction false} DeleteLinksMembers(rels: seq<Assignment>, userId: int, jobId: int, a: Assignment)
    ensures a in DeleteLinks(rels, userId, jobId) <==> a in rels && !(a.jobId == jobId && a.userId == Some(userId))
    decreases |rels|
  {
    if rels != [] {
      DeleteLinksMembers(rels[..|rels| - 1], userId, jobId, a);
      assert rels == rels[..|rels| - 1] + [rels[|rels| - 1]];
    }
  }
}
