/** What an extract update refuses, whatever else the log holds. */
module ExtractRefusals {
  import opened Wrappers
  import opened Sets
  import opened EditLog
  import opened ExtractUpdate

  // ----- Which rows are accepted -----

  /** Two rows are of the same block of the same edit. */
  predicate Twice(rows: seq<Record>, i: nat, j: nat)
    requires i < |rows| && j < |rows|
  {
    rows[i].atomic == rows[j].atomic && rows[i].index == rows[j].index
  }

  /** Some row is of a block of an edit. */
  ghost predicate Has(rows: seq<Record>, atomic: int, index: int) {
    exists r :: r in rows && r.atomic == Some(atomic) && r.index == Some(index)
  }

  /** A row is of a block of an edit that is still to be applied. */
  predicate Names(r: Record, atomicDone: int) {
    r.atomic.Some? && r.index.Some? && atomicDone < r.atomic.value
  }

  /** A block's number is not negative, and every lower number is there as well. */
  ghost predicate NoneMissing(rows: seq<Record>, r: Record)
    requires r.atomic.Some? && r.index.Some?
  {
    0 <= r.index.value && forall n :: 0 <= n < r.index.value ==> Has(rows, r.atomic.value, n)
  }

  lemma {:induction false} IndexesHas(rows: seq<Record>, a: int, x: int)
    ensures x in Indexes(rows, a) <==> Has(rows, a, x)
  {
    if |rows| > 0 {
      var init, r := rows[..|rows| - 1], rows[|rows| - 1];
      IndexesHas(init, a, x);
      assert rows == init + [r];
      if Has(rows, a, x) && !(r.atomic == Some(a) && r.index == Some(x)) {
        var q :| q in rows && q.atomic == Some(a) && q.index == Some(x);
        assert q in init;
      }
      if Has(init, a, x) {
        var q :| q in init && q.atomic == Some(a) && q.index == Some(x);
        assert q in rows;
      }
    }
  }

  ghost predicate OnceIn(rows: seq<Record>, a: int) {
    forall i, j :: 0 <= i < j < |rows| && rows[i].atomic == Some(a) ==> !Twice(rows, i, j)
  }

  lemma OnceNext(init: seq<Record>, r: Record, a: int)
    requires r.index.Some?
    ensures OnceIn(init + [r], a) <==> OnceIn(init, a) && (r.atomic == Some(a) ==> !Has(init, a, r.index.value))
  {
    var rows := init + [r];
    assert forall i, j :: 0 <= i < j < |init| ==> Twice(init, i, j) == Twice(rows, i, j);
    if OnceIn(rows, a) {
      assert OnceIn(init, a);
      if r.atomic == Some(a) && Has(init, a, r.index.value) {
        var q :| q in init && q.atomic == Some(a) && q.index == r.index;
        var i :| 0 <= i < |init| && init[i] == q;
        assert Twice(rows, i, |init|);
        assert false;
      }
    }
    if OnceIn(init, a) && (r.atomic == Some(a) ==> !Has(init, a, r.index.value)) {
      forall i, j | 0 <= i < j < |rows| && rows[i].atomic == Some(a)
        ensures !Twice(rows, i, j)
      {
        assert init[i] in init;
        assert rows[j].index.Some? || j < |init|;
      }
    }
  }

  lemma OneMoreOnce(s: seq<int>, x: int)
    ensures NoDuplicates(s + [x]) <==> NoDuplicates(s) && x !in s
  {
    var more := s + [x];
    if NoDuplicates(more) {
      assert forall i :: 0 <= i < |s| ==> more[i] == s[i] && more[i] != more[|s|];
    }
  }

  lemma {:induction false} Once(rows: seq<Record>, a: int)
    requires forall r :: r in rows ==> r.index.Some?
    ensures NoDuplicates(Indexes(rows, a)) <==> OnceIn(rows, a)
  {
    hide OnceIn, NoDuplicates, Has;
    if |rows| == 0 {
      NoneTwice(a);
    } else {
      var init, r := rows[..|rows| - 1], rows[|rows| - 1];
      assert rows == init + [r];
      Once(init, a);
      OnceNext(init, r, a);
      IndexesHas(init, a, r.index.value);
      OneMoreOnce(Indexes(init, a), r.index.value);
      assert Indexes(init, a) + [] == Indexes(init, a);
    }
  }

  lemma NoneTwice(a: int)
    ensures OnceIn([], a) && NoDuplicates([])
  {
  }

  // ----- Numbers from zero on -----

  ghost predicate ClosedBelow(s: seq<int>) {
    (forall x :: x in s ==> 0 <= x) && forall x, n :: x in s && 0 <= n < x ==> n in s
  }

  function Elements(s: seq<int>): set<int> {
    set x | x in s
  }

  lemma LastApart(s: seq<int>)
    requires |s| > 0 && NoDuplicates(s)
    ensures
      var init, x := s[..|s| - 1], s[|s| - 1];
      NoDuplicates(init) && x !in init && s == init + [x] && Elements(s) == Elements(init) + {x}
  {
    var init, x := s[..|s| - 1], s[|s| - 1];
    assert s == init + [x];
    OneMoreOnce(init, x);
  }

  lemma {:induction false} DifferentCount(s: seq<int>)
    requires NoDuplicates(s)
    ensures |Elements(s)| == |s|
  {
    hide NoDuplicates;
    if |s| > 0 {
      LastApart(s);
      DifferentCount(s[..|s| - 1]);
    }
  }

  lemma {:induction false} EachOnce(s: seq<int>, x: int)
    requires NoDuplicates(s)
    ensures multiset(s)[x] == if x in s then 1 else 0
  {
    hide NoDuplicates;
    if |s| > 0 {
      LastApart(s);
      EachOnce(s[..|s| - 1], x);
    }
  }

  function UpTo(n: nat): (r: set<int>)
    ensures |r| == n && forall x :: x in r <==> 0 <= x < n
  {
    if n == 0 then {} else UpTo(n - 1) + {n - 1}
  }

  /** A set of numbers from zero on without a gap is determined by its size. */
  lemma {:induction false} GaplessIs(a: set<int>)
    requires forall x :: x in a ==> 0 <= x
    requires forall x, n :: x in a && 0 <= n < x ==> n in a
    ensures a == UpTo(|a|)
  {
    var n := |a|;
    if n !in a {
      forall x | x in a
        ensures x in UpTo(n)
      {
      }
      SubsetSize(a, UpTo(n));
    } else {
      forall x | x in UpTo(n + 1)
        ensures x in a
      {
      }
      SubsetSize(UpTo(n + 1), a);
      assert false;
    }
  }

  lemma RangeIs(n: nat)
    ensures NoDuplicates(Range(n)) && Elements(Range(n)) == UpTo(n)
  {
    forall x
      ensures x in Range(n) <==> 0 <= x < n
    {
      if 0 <= x < n {
        assert Range(n)[x] == x;
      }
    }
  }

  /** Different numbers are the first ones, in some order, if none is missing below another. */
  lemma WholeIs(s: seq<int>)
    requires NoDuplicates(s)
    ensures multiset(s) == multiset(Range(|s|)) <==> ClosedBelow(s)
  {
    var range := Range(|s|);
    RangeIs(|s|);
    forall x
      ensures multiset(s)[x] == (if x in s then 1 else 0) && multiset(range)[x] == if 0 <= x < |s| then 1 else 0
    {
      EachOnce(s, x);
      EachOnce(range, x);
      assert x in range <==> x in Elements(range);
    }
    hide Range, NoDuplicates;
    if ClosedBelow(s) {
      DifferentCount(s);
      FirstNumbers(s);
      assert multiset(s) == multiset(range);
    }
    if multiset(s) == multiset(range) {
      forall x
        ensures x in s <==> 0 <= x < |s|
      {
        assert multiset(s)[x] == multiset(range)[x];
      }
    }
  }

  lemma FirstNumbers(s: seq<int>)
    requires ClosedBelow(s) && |Elements(s)| == |s|
    ensures forall x :: x in s <==> 0 <= x < |s|
  {
    GaplessIs(Elements(s));
    assert forall x :: x in s <==> x in Elements(s);
  }

  lemma NoneMissingIs(rows: seq<Record>, a: int)
    ensures ClosedBelow(Indexes(rows, a)) <==>
      forall r :: r in rows && r.atomic == Some(a) && r.index.Some? ==> NoneMissing(rows, r)
  {
    var s := Indexes(rows, a);
    forall x
      ensures x in s <==> Has(rows, a, x)
    {
      IndexesHas(rows, a, x);
    }
    hide Indexes;
    if ClosedBelow(s) {
      forall r | r in rows && r.atomic == Some(a) && r.index.Some?
        ensures NoneMissing(rows, r)
      {
        assert Has(rows, a, r.index.value);
      }
    }
    if forall r :: r in rows && r.atomic == Some(a) && r.index.Some? ==> NoneMissing(rows, r) {
      forall x | x in s
        ensures 0 <= x && forall n :: 0 <= n < x ==> n in s
      {
        var r :| r in rows && r.atomic == Some(a) && r.index == Some(x);
        assert NoneMissing(rows, r);
      }
    }
  }

  lemma {:induction false} FirstUngroupedIs(rows: seq<Record>, atomicDone: int)
    ensures FirstUngrouped(rows, atomicDone).None? <==> forall r :: r in rows ==> Names(r, atomicDone)
  {
    if |rows| > 0 {
      FirstUngroupedIs(rows[1..], atomicDone);
      assert rows[0] in rows && forall r :: r in rows <==> r == rows[0] || r in rows[1..];
    }
  }

  /** What rows are accepted: each names an edit still to come and a block of it,
      no block is there twice, and, if nothing was filtered out, none is missing. */
  lemma AcceptedExactlyWhen(rows: seq<Record>, atomicDone: int, filtered: bool)
    ensures GroupsError(rows, atomicDone, filtered).None? <==>
      && (forall r :: r in rows ==> Names(r, atomicDone))
      && (forall i, j :: 0 <= i < j < |rows| ==> !Twice(rows, i, j))
      && (!filtered ==> forall r :: r in rows ==> NoneMissing(rows, r))
  {
    FirstUngroupedIs(rows, atomicDone);
    hide FirstUngrouped, Indexes, OnceIn, WholeGroup, NoneMissing;
    if forall r :: r in rows ==> Names(r, atomicDone) {
      forall r | r in rows
        ensures WholeGroup(Indexes(rows, r.atomic.value), filtered) <==>
          OnceIn(rows, r.atomic.value) && (!filtered ==> EditWhole(rows, r.atomic.value))
      {
        EditIsWhole(rows, r.atomic.value, filtered);
      }
      OnceEverywhere(rows);
      if WholeGroups(rows, filtered) && !filtered {
        forall r | r in rows
          ensures NoneMissing(rows, r)
        {
          assert WholeGroup(Indexes(rows, r.atomic.value), filtered);
        }
      }
    }
  }

  ghost predicate EditWhole(rows: seq<Record>, a: int) {
    forall r :: r in rows && r.atomic == Some(a) && r.index.Some? ==> NoneMissing(rows, r)
  }

  lemma EditIsWhole(rows: seq<Record>, a: int, filtered: bool)
    requires forall r :: r in rows ==> r.index.Some?
    ensures WholeGroup(Indexes(rows, a), filtered) <==> OnceIn(rows, a) && (!filtered ==> EditWhole(rows, a))
  {
    Once(rows, a);
    NoneMissingIs(rows, a);
    hide Indexes, OnceIn, NoneMissing, NoDuplicates, Range, ClosedBelow;
    if NoDuplicates(Indexes(rows, a)) {
      WholeIs(Indexes(rows, a));
    }
  }

  lemma OnceEverywhere(rows: seq<Record>)
    requires forall r :: r in rows ==> r.atomic.Some?
    ensures (forall r :: r in rows ==> OnceIn(rows, r.atomic.value)) <==>
      forall i, j :: 0 <= i < j < |rows| ==> !Twice(rows, i, j)
  {
    if forall r :: r in rows ==> OnceIn(rows, r.atomic.value) {
      forall i, j | 0 <= i < j < |rows|
        ensures !Twice(rows, i, j)
      {
        assert rows[i] in rows && OnceIn(rows, rows[i].atomic.value);
      }
    }
  }

  // ----- What a run refuses -----

  /** A record that an update still has to apply. */
  ghost predicate Pending(log: seq<Record>, latest: Checkpoint, keep: Filter, c: Checkpoint, r: Record) {
    r in log && c.activity < r.id <= latest.activity && keep(r)
  }

  /** A record that nothing read so far lets an update apply: it is of the old
      form, or of an edit done before, or, where nothing is filtered out, of an
      edit of which the log lacks a block before it. */
  ghost predicate Hopeless(log: seq<Record>, latest: Checkpoint, keep: Filter, filtered: bool, c: Checkpoint, r: Record) {
    || r.atomic.None? || r.index.None? || r.atomic.value <= c.atomic
    || (!filtered && (r.index.value < 0 ||
          exists n :: 0 <= n < r.index.value && NotPending(log, latest, keep, c, r.atomic.value, n)))
  }

  ghost predicate NotPending(log: seq<Record>, latest: Checkpoint, keep: Filter, c: Checkpoint, atomic: int, n: int) {
    forall q :: Pending(log, latest, keep, c, q) ==> !(q.atomic == Some(atomic) && q.index == Some(n))
  }

  lemma HopelessRows(log: seq<Record>, latest: Checkpoint, keep: Filter, filtered: bool, c: Checkpoint, r: Record,
                     rows: seq<Record>, atomicDone: int)
    requires forall q :: q in rows ==> Pending(log, latest, keep, c, q)
    requires r in rows && Hopeless(log, latest, keep, filtered, c, r) && c.atomic <= atomicDone
    ensures GroupsError(rows, atomicDone, filtered).Some?
  {
    hide GroupsError, Pending;
    if Names(r, atomicDone) && 0 <= r.index.value {
      var n :| 0 <= n < r.index.value && NotPending(log, latest, keep, c, r.atomic.value, n);
      assert !Has(rows, r.atomic.value, n);
      assert !NoneMissing(rows, r);
    }
    AcceptedExactlyWhen(rows, atomicDone, filtered);
  }

  lemma {:induction false} HeldAreRows(rows: seq<Record>, more: bool)
    ensures forall q :: q in HeldBack(rows, more) ==> q in rows
  {
    if more && |rows| > 0 {
      SameEditAreRows(rows, rows[|rows| - 1].atomic);
    }
  }

  lemma {:induction false} SameEditAreRows(rows: seq<Record>, atomic: Option<int>)
    ensures forall q :: q in SameEdit(rows, atomic) ==> q in rows
  {
    if |rows| > 0 {
      SameEditAreRows(rows[..|rows| - 1], atomic);
      assert rows == rows[..|rows| - 1] + [rows[|rows| - 1]];
    }
  }

  lemma {:induction false} WindowsRefuse(log: seq<Record>, latest: Checkpoint, keep: Filter, filtered: bool, window: nat,
                                         position: int, held: seq<Record>, c: Checkpoint, c0: Checkpoint, r: Record)
    requires Sorted(log) && window >= 1 && c0.activity < position <= r.id && c0.atomic <= c.atomic
    requires Pending(log, latest, keep, c0, r) && Hopeless(log, latest, keep, filtered, c0, r)
    requires forall q :: q in held ==> Pending(log, latest, keep, c0, q)
    ensures Windows(log, latest, keep, filtered, window, position, held, c).error.Some?
    decreases latest.activity - position + 1
  {
    hide GroupsError, Hopeless, FirstWithoutParents, HeldBack, Select;
    var last := WindowEnd(position, window, latest);
    var found := Select(log, position, last, keep);
    var rows := held + found;
    var more := last + 1 <= latest.activity;
    SelectContent(log, position, last, keep);
    HeldAreRows(rows, more);
    if r.id <= last {
      HopelessRows(log, latest, keep, filtered, c0, r, rows, c.atomic);
    } else {
      var held' := HeldBack(rows, more);
      var ready := rows[..|rows| - |held'|];
      if GroupsError(rows, c.atomic, filtered).None? {
        if |ready| == 0 {
          WindowsRefuse(log, latest, keep, filtered, window, last + 1, held', c, c0, r);
        } else {
          LastIsLater(rows, |ready|, c.atomic, filtered);
          WindowsRefuse(log, latest, keep, filtered, window, last + 1, held', LastOf(ready), c0, r);
        }
      }
    }
  }

  lemma LastIsLater(rows: seq<Record>, k: nat, atomicDone: int, filtered: bool)
    requires 0 < k <= |rows| && GroupsError(rows, atomicDone, filtered).None?
    ensures atomicDone < LastOf(rows[..k]).atomic
  {
    AcceptedExactlyWhen(rows, atomicDone, filtered);
    assert rows[k - 1] in rows;
    assert Names(rows[k - 1], atomicDone);
  }

  /** An update does not complete if it still has to apply a record that is of the
      old form, or of an edit done before its checkpoint, or, where nothing is
      filtered out, of an edit of which the log lacks a block before it. */
  lemma HopelessIsRefused(log: seq<Record>, latest: Checkpoint, keep: Filter, filtered: bool, window: nat, c: Checkpoint,
                          r: Record)
    requires Sorted(log) && window >= 1
    requires Pending(log, latest, keep, c, r) && Hopeless(log, latest, keep, filtered, c, r)
    ensures RunPlan(log, latest, keep, filtered, window, c).error.Some?
  {
    hide Windows, Hopeless;
    if c.activity <= latest.activity && c.atomic <= latest.atomic {
      WindowsRefuse(log, latest, keep, filtered, window, c.activity + 1, [], c, c, r);
    }
  }

  lemma {:induction false} WindowsDoNotReset(log: seq<Record>, latest: Checkpoint, keep: Filter, filtered: bool, window: nat,
                                             position: int, held: seq<Record>, c: Checkpoint)
    requires window >= 1
    ensures Windows(log, latest, keep, filtered, window, position, held, c).error != Some(SourceReset)
    decreases latest.activity - position + 1
  {
    hide FirstUngrouped, WholeGroups, FirstWithoutParents, HeldBack;
    if position <= latest.activity {
      var last := WindowEnd(position, window, latest);
      var rows := held + Select(log, position, last, keep);
      match WindowStep(rows, c.atomic, filtered, last + 1 <= latest.activity)
      case Refuse(_) =>
      case Wait(held') => WindowsDoNotReset(log, latest, keep, filtered, window, last + 1, held', c);
      case Apply(ready, held') =>
        WindowsDoNotReset(log, latest, keep, filtered, window, last + 1, held', LastOf(ready));
    }
  }

  /** A source is refused as reset, and nothing is applied, exactly if one of its
      latest IDs is before the checkpoint. */
  lemma ResetExactlyWhen(log: seq<Record>, latest: Checkpoint, keep: Filter, filtered: bool, window: nat, c: Checkpoint)
    requires window >= 1
    ensures
      var plan := RunPlan(log, latest, keep, filtered, window, c);
      && (plan.error == Some(SourceReset) <==> latest.activity < c.activity || latest.atomic < c.atomic)
      && (plan.error == Some(SourceReset) ==> plan.txns == [])
  {
    hide Windows;
    WindowsDoNotReset(log, latest, keep, filtered, window, c.activity + 1, [], c);
  }

  /** The rows of a transaction are refused for the first of them that lacks its
      related parents, and only for one that does. */
  lemma {:induction false} ParentsExactlyWhen(rows: seq<Record>)
    ensures FirstWithoutParents(rows).None? <==> forall r :: r in rows ==> r.hasRelatedParents
    ensures FirstWithoutParents(rows).Some? ==>
      exists i :: 0 <= i < |rows| && !rows[i].hasRelatedParents && FirstWithoutParents(rows) == Some(rows[i].id)
        && forall k :: 0 <= k < i ==> rows[k].hasRelatedParents
  {
    if |rows| > 0 {
      ParentsExactlyWhen(rows[1..]);
      assert rows[0] in rows && forall r :: r in rows <==> r == rows[0] || r in rows[1..];
      if rows[0].hasRelatedParents && FirstWithoutParents(rows[1..]).Some? {
        var i :| 0 <= i < |rows[1..]| && !rows[1..][i].hasRelatedParents
          && FirstWithoutParents(rows[1..]) == Some(rows[1..][i].id)
          && forall k :: 0 <= k < i ==> rows[1..][k].hasRelatedParents;
        forall k | 0 <= k < i + 1
          ensures rows[k].hasRelatedParents
        {
          assert k > 0 ==> rows[k] == rows[1..][k - 1];
        }
        assert !rows[i + 1].hasRelatedParents;
      }
    }
  }
}
