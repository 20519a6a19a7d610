/** The map's edit activity: an append-only log of records in ID order, and the
    one question asked of it, which records of an ID range concern somebody. */
module EditLog {
  import opened Wrappers

  /** One block of an upload. Old records may lack the grouping of an atomic
      edit, or the relations that hold the nodes they touch. */
  datatype Record = Record(id: int, atomic: Option<int>, index: Option<int>, hasRelatedParents: bool)

  type Filter = Record -> bool

  ghost predicate Sorted(log: seq<Record>) {
    forall i, j :: 0 <= i < j < |log| ==> log[i].id < log[j].id
  }

  /** The records with IDs in [first, last] that pass the filter, in order. */
  function Select(log: seq<Record>, first: int, last: int, keep: Filter): seq<Record> {
    if |log| == 0 then []
    else
      var r := log[|log| - 1];
      Select(log[..|log| - 1], first, last, keep) + (if first <= r.id <= last && keep(r) then [r] else [])
  }

  function Take<T>(s: seq<T>, limit: nat): seq<T> {
    if |s| <= limit then s else s[..limit]
  }

  /** A selection is sorted and inside its range. */
  lemma {:induction false} SelectRange(log: seq<Record>, first: int, last: int, keep: Filter)
    requires Sorted(log)
    ensures Sorted(Select(log, first, last, keep))
    ensures forall r :: r in Select(log, first, last, keep) ==> first <= r.id <= last
  {
    SelectContent(log, first, last, keep);
  }

  lemma {:induction false} SelectContent(log: seq<Record>, first: int, last: int, keep: Filter)
    requires Sorted(log)
    ensures Sorted(Select(log, first, last, keep))
    ensures forall r :: r in Select(log, first, last, keep) <==> r in log && first <= r.id <= last && keep(r)
  {
    if |log| > 0 {
      var init := log[..|log| - 1];
      assert log == init + [log[|log| - 1]];
      SelectContent(init, first, last, keep);
    }
  }

  /** A range is the concatenation of its two halves. */
  lemma {:induction false} SelectSplit(log: seq<Record>, first: int, mid: int, last: int, keep: Filter)
    requires Sorted(log)
    requires first <= mid + 1 && mid <= last
    ensures Select(log, first, last, keep) == Select(log, first, mid, keep) + Select(log, mid + 1, last, keep)
  {
    if |log| > 0 {
      var init, r := log[..|log| - 1], log[|log| - 1];
      SelectSplit(init, first, mid, last, keep);
      var low, high := Select(init, first, mid, keep), Select(init, mid + 1, last, keep);
      var tail := if first <= r.id <= last && keep(r) then [r] else [];
      if r.id <= mid {
        assert high == [] by {
          SelectEmptyRange(init, mid + 1, last, keep);
        }
        assert low + high + tail == low + tail + high;
      } else {
        assert low + high + tail == low + (high + tail);
      }
    }
  }

  /** Records outside the range, or beyond it in a longer log, make no difference. */
  lemma {:induction false} SelectEmptyRange(log: seq<Record>, first: int, last: int, keep: Filter)
    requires forall r :: r in log && first <= r.id <= last ==> !keep(r)
    ensures Select(log, first, last, keep) == []
  {
    if |log| > 0 {
      SelectEmptyRange(log[..|log| - 1], first, last, keep);
    }
  }

  lemma {:induction false} SelectAppend(log: seq<Record>, more: seq<Record>, first: int, last: int, keep: Filter)
    requires forall r :: r in more ==> last < r.id
    ensures Select(log + more, first, last, keep) == Select(log, first, last, keep)
  {
    if |more| == 0 {
      assert log + more == log;
    } else {
      var init := more[..|more| - 1];
      assert (log + more)[..|log + more| - 1] == log + init;
      SelectAppend(log, init, first, last, keep);
      assert more[|more| - 1] in more;
    }
  }

  /** Cutting a sorted selection at its k-th record cuts its range there. */
  lemma CutAt(all: seq<Record>, low: seq<Record>, high: seq<Record>, k: nat, mid: int)
    requires Sorted(all) && all == low + high
    requires 0 < k <= |all| && all[k - 1].id == mid
    requires forall r :: r in low ==> r.id <= mid
    requires forall r :: r in high ==> mid < r.id
    ensures low == all[..k] && high == all[k..]
  {
    assert forall i :: 0 <= i < |low| ==> low[i] in low && all[i] == low[i];
    assert forall i :: |low| <= i < |all| ==> all[i] == high[i - |low|] && all[i] in high;
    assert k < |all| ==> all[k - 1].id < all[k].id;
    assert k - 1 < |low| <= k;
  }

  /** What is left of a selection after its first k records is the selection
      that starts just past the last of them. */
  lemma SelectRest(log: seq<Record>, first: int, last: int, keep: Filter, k: nat)
    requires Sorted(log)
    requires 0 < k <= |Select(log, first, last, keep)|
    ensures
      var all := Select(log, first, last, keep);
      && first <= all[k - 1].id <= last
      && Select(log, first, all[k - 1].id, keep) == all[..k]
      && Select(log, all[k - 1].id + 1, last, keep) == all[k..]
  {
    var all := Select(log, first, last, keep);
    SelectRange(log, first, last, keep);
    assert all[k - 1] in all;
    var mid := all[k - 1].id;
    SelectSplit(log, first, mid, last, keep);
    SelectRange(log, first, mid, keep);
    SelectRange(log, mid + 1, last, keep);
    CutAt(all, Select(log, first, mid, keep), Select(log, mid + 1, last, keep), k, mid);
  }
}
