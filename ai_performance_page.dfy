/**
 * app/dashboard/ai-performance/page.tsx: the table of failed video analyses over a local list.
 * Retrying a failure marks it resolved; the page counts the unresolved ones.
 */
module AIPerformancePage {
  import opened Seqs
  import opened Entities

  /** `{ ...f, resolved: true }` on the failures with the id, the others as they were. */
  function Retry(failures: seq<AIFailure>, failureId: string): (r: seq<AIFailure>)
    ensures |r| == |failures|
    ensures forall i :: 0 <= i < |failures| ==>
      r[i] == if failures[i].id == failureId then failures[i].(resolved := true) else failures[i]
  {
    if failures == [] then []
    else [if failures[0].id == failureId then failures[0].(resolved := true) else failures[0]] + Retry(failures[1..], failureId)
  }

  /** Retrying the same failure again changes nothing. */
  lemma RetryIdempotent(failures: seq<AIFailure>, failureId: string)
    ensures Retry(Retry(failures, failureId), failureId) == Retry(failures, failureId)
  {
  }

  predicate Unresolved(f: AIFailure) { !f.resolved }

  /** `unresolvedCount`. */
  function UnresolvedCount(failures: seq<AIFailure>): (n: nat)
    ensures n <= |failures|
    ensures n == |Filter(failures, Unresolved)|
  {
    Count(failures, Unresolved)
  }

  /** A retry lowers the count by the number of unresolved failures that carry the id. */
  lemma {:induction false} RetryCount(failures: seq<AIFailure>, failureId: string)
    ensures UnresolvedCount(Retry(failures, failureId)) + Count(failures, (f: AIFailure) => f.id == failureId && !f.resolved)
      == UnresolvedCount(failures)
  {
    if failures != [] {
      RetryCount(failures[1..], failureId);
      assert Retry(failures, failureId)[1..] == Retry(failures[1..], failureId);
    }
  }

  predicate UniqueIds(failures: seq<AIFailure>)
  {
    forall i, j :: 0 <= i < j < |failures| ==> failures[i].id != failures[j].id
  }

  /** With unique ids, exactly one failure carries a given id when one does. */
  lemma {:induction false} CountUniqueMatch(failures: seq<AIFailure>, k: int)
    requires UniqueIds(failures) && 0 <= k < |failures| && !failures[k].resolved
    ensures Count(failures, (f: AIFailure) => f.id == failures[k].id && !f.resolved) == 1
  {
    var id := failures[k].id;
    var p := (f: AIFailure) => f.id == id && !f.resolved;
    if k == 0 {
      assert forall x :: x in failures[1..] ==> !p(x) by {
        forall x | x in failures[1..] ensures !p(x) {
          var j :| 0 <= j < |failures[1..]| && failures[1..][j] == x;
          assert failures[j + 1] == x;
        }
      }
      FilterNone(failures[1..], p);
    } else {
      assert failures[1..][k - 1] == failures[k];
      CountUniqueMatch(failures[1..], k - 1);
    }
  }

  /** A filter whose predicate holds of no element keeps nothing. */
  lemma {:induction false} FilterNone(s: seq<AIFailure>, p: AIFailure -> bool)
    requires forall x :: x in s ==> !p(x)
    ensures Filter(s, p) == []
  {
    if s != [] {
      FilterNone(s[1..], p);
    }
  }

  /** With unique ids, retrying an unresolved failure lowers `unresolvedCount` by exactly one. */
  lemma RetryLowersCountByOne(failures: seq<AIFailure>, k: int)
    requires UniqueIds(failures) && 0 <= k < |failures| && !failures[k].resolved
    ensures UnresolvedCount(Retry(failures, failures[k].id)) == UnresolvedCount(failures) - 1
  {
    RetryCount(failures, failures[k].id);
    CountUniqueMatch(failures, k);
  }

  /** The status badge. */
  function StatusLabel(f: AIFailure): (badge: string)
    ensures badge == "Resolved" <==> f.resolved
    ensures badge == "Pending" <==> !f.resolved
  {
    if f.resolved then "Resolved" else "Pending"
  }

  /** The Retry button of a row: offered exactly on the rows whose badge reads "Pending". */
  predicate RetryOffered(f: AIFailure)
    ensures RetryOffered(f) <==> StatusLabel(f) == "Pending"
  {
    !f.resolved
  }

  /** A retried row no longer offers the Retry button. */
  lemma RetryWithdrawsButton(failures: seq<AIFailure>, k: int)
    requires 0 <= k < |failures|
    ensures !RetryOffered(Retry(failures, failures[k].id)[k])
  {
  }
}
