/** What an extract update promises, over every log of whole edits: each
    concerning record applied once and in order, no edit split between
    transactions, and the same end however often the update is stopped. */
module WholeEdits {
  import opened Wrappers
  import opened EditLog
  import opened ExtractUpdate

  /** A log made of whole edits: in ID order, edits one after another, the blocks
      of each numbered from zero, and nothing recorded in the old form. */
  ghost predicate WellFormed(log: seq<Record>) {
    && Sorted(log)
    && (forall i :: 0 <= i < |log| ==> log[i].atomic.Some? && log[i].index.Some? && log[i].hasRelatedParents)
    && (forall i, j :: 0 <= i < j < |log| ==> log[i].atomic.value <= log[j].atomic.value)
    && (forall i :: 0 <= i < |log| ==> Numbered(log, i))
  }

  /** A block's index is one more than that of the block of its edit before it, or zero. */
  ghost predicate Numbered(log: seq<Record>, i: nat)
    requires i < |log|
    requires forall k :: 0 <= k < |log| ==> log[k].index.Some?
  {
    log[i].index.value == if i > 0 && log[i - 1].atomic == log[i].atomic then log[i - 1].index.value + 1 else 0
  }

  /** Among the records that concern the extract, a checkpoint falls between two edits. */
  ghost predicate Boundary(log: seq<Record>, keep: Filter, c: Checkpoint) {
    forall r :: r in log && r.atomic.Some? && keep(r) ==> (r.id <= c.activity <==> r.atomic.value <= c.atomic)
  }

  ghost predicate KeepsAll(log: seq<Record>, keep: Filter) {
    forall r :: r in log ==> keep(r)
  }

  function EndOf(log: seq<Record>): Option<Record> {
    if |log| == 0 then None else Some(log[|log| - 1])
  }

  /** What a log of whole edits says of a record and the one before it, if any. */
  ghost predicate Follows(p: Option<Record>, r: Record) {
    && r.atomic.Some? && r.index.Some? && r.hasRelatedParents
    && (p.None? ==> r.index.value == 0)
    && (p.Some? ==>
          && p.value.atomic.Some? && p.value.index.Some?
          && p.value.id < r.id && p.value.atomic.value <= r.atomic.value
          && r.index.value == if p.value.atomic == r.atomic then p.value.index.value + 1 else 0)
  }

  lemma WellFormedPrefix(log: seq<Record>)
    requires WellFormed(log) && |log| > 0
    ensures WellFormed(log[..|log| - 1])
    ensures Follows(EndOf(log[..|log| - 1]), log[|log| - 1])
  {
    var init := log[..|log| - 1];
    assert forall i :: 0 <= i < |init| ==> init[i] == log[i];
    assert Numbered(log, |log| - 1);
    forall i | 0 <= i < |init|
      ensures Numbered(init, i)
    {
      assert Numbered(log, i);
    }
  }

  // ----- check_groups accepts -----

  ghost predicate Increasing(s: seq<int>) {
    forall i, j :: 0 <= i < j < |s| ==> s[i] < s[j]
  }

  /** The indexes seen of edit a, when the log read so far ends with the given record. */
  ghost predicate SeenUpTo(indexes: seq<int>, end: Option<Record>, a: int) {
    && Increasing(indexes)
    && (end.None? ==> indexes == [])
    && (end.Some? && end.value.atomic.Some? && end.value.atomic.value < a ==> indexes == [])
    && (end.Some? && end.value.atomic == Some(a) ==>
          forall i :: 0 <= i < |indexes| ==> indexes[i] <= end.value.index.GetOr(0))
  }

  lemma SeenNext(indexes: seq<int>, p: Option<Record>, r: Record, a: int, selected: bool)
    requires Follows(p, r) && SeenUpTo(indexes, p, a)
    ensures SeenUpTo(indexes + (if selected && r.atomic == Some(a) then [r.index.value] else []), Some(r), a)
  {
  }

  lemma {:induction false} IndexesIncrease(log: seq<Record>, first: int, last: int, keep: Filter, a: int)
    requires WellFormed(log)
    ensures SeenUpTo(Indexes(Select(log, first, last, keep), a), EndOf(log), a)
  {
    if |log| > 0 {
      WellFormedPrefix(log);
      hide WellFormed, Indexes, SeenUpTo, Follows;
      var init, r := log[..|log| - 1], log[|log| - 1];
      IndexesIncrease(init, first, last, keep, a);
      var rows := Select(init, first, last, keep);
      IndexesNext(rows, r, a, first <= r.id <= last && keep(r));
      SeenNext(Indexes(rows, a), EndOf(init), r, a, first <= r.id <= last && keep(r));
    }
  }

  lemma IndexesNext(rows: seq<Record>, r: Record, a: int, selected: bool)
    ensures Indexes(rows + (if selected then [r] else []), a) ==
      Indexes(rows, a) + (if selected && r.atomic == Some(a) && r.index.Some? then [r.index.value] else [])
  {
    if selected {
      assert (rows + [r])[..|rows|] == rows;
    } else {
      assert rows + [] == rows;
    }
  }

  /** As SeenUpTo, when every record of edit a up to the given ID has been read. */
  ghost predicate SeenFromZero(indexes: seq<int>, end: Option<Record>, last: int, a: int) {
    && indexes == Range(|indexes|)
    && (end.None? ==> indexes == [])
    && (end.Some? && end.value.atomic.Some? && end.value.atomic.value < a ==> indexes == [])
    && (end.Some? && end.value.atomic == Some(a) && end.value.id <= last ==> |indexes| == end.value.index.GetOr(0) + 1)
  }

  lemma SeenFromZeroNext(indexes: seq<int>, p: Option<Record>, r: Record, last: int, a: int)
    requires Follows(p, r) && SeenFromZero(indexes, p, last, a)
    ensures SeenFromZero(indexes + (if r.id <= last && r.atomic == Some(a) then [r.index.value] else []),
                         Some(r), last, a)
  {
  }

  /** Without a filter, what has been read of an edit is its first blocks. */
  lemma {:induction false} IndexesFromZero(log: seq<Record>, last: int, keep: Filter, c: Checkpoint, a: int)
    requires WellFormed(log) && Boundary(log, keep, c) && KeepsAll(log, keep)
    requires a > c.atomic
    ensures SeenFromZero(Indexes(Select(log, c.activity + 1, last, keep), a), EndOf(log), last, a)
  {
    if |log| > 0 {
      WellFormedPrefix(log);
      var init, r := log[..|log| - 1], log[|log| - 1];
      assert r in log && (forall x :: x in init ==> x in log);
      assert keep(r) && (r.atomic.value == a ==> c.activity < r.id);
      assert r.index.Some?;
      hide WellFormed, Indexes, SeenFromZero, Follows;
      IndexesFromZero(init, last, keep, c, a);
      var rows := Select(init, c.activity + 1, last, keep);
      IndexesNext(rows, r, a, c.activity + 1 <= r.id <= last);
      SeenFromZeroNext(Indexes(rows, a), EndOf(init), r, last, a);
    }
  }

  lemma GroupsAccepted(log: seq<Record>, last: int, keep: Filter, filtered: bool, c: Checkpoint)
    requires WellFormed(log) && Boundary(log, keep, c)
    requires !filtered ==> KeepsAll(log, keep)
    ensures GroupsError(Select(log, c.activity + 1, last, keep), c.atomic, filtered).None?
  {
    var rows := Select(log, c.activity + 1, last, keep);
    SelectContent(log, c.activity + 1, last, keep);
    AllGrouped(rows, c.atomic);
    forall r | r in rows && r.atomic.Some?
      ensures WholeGroup(Indexes(rows, r.atomic.value), filtered)
    {
      IndexesIncrease(log, c.activity + 1, last, keep, r.atomic.value);
      if !filtered {
        IndexesFromZero(log, last, keep, c, r.atomic.value);
      }
    }
  }

  // ----- Holding back the final edit -----

  /** Rows with their edits in order, and nothing recorded in the old form. */
  ghost predicate Ordered(rows: seq<Record>) {
    && (forall i :: 0 <= i < |rows| ==> rows[i].atomic.Some? && rows[i].hasRelatedParents)
    && (forall i :: 0 < i < |rows| ==> rows[i - 1].atomic.value <= rows[i].atomic.value)
  }

  lemma {:induction false} SelectOrdered(log: seq<Record>, first: int, last: int, keep: Filter)
    requires WellFormed(log)
    ensures Ordered(Select(log, first, last, keep))
    ensures
      var rows := Select(log, first, last, keep);
      |rows| > 0 ==>
        && |log| > 0 && log[|log| - 1].atomic.Some?
        && rows[|rows| - 1].atomic.value <= log[|log| - 1].atomic.value
  {
    if |log| > 0 {
      WellFormedPrefix(log);
      hide WellFormed;
      SelectOrdered(log[..|log| - 1], first, last, keep);
    }
  }

  lemma {:induction false} NoneWithoutParents(rows: seq<Record>, k: nat)
    requires k <= |rows|
    requires forall i :: 0 <= i < |rows| ==> rows[i].hasRelatedParents
    ensures FirstWithoutParents(rows[..k]).None?
  {
    if k > 0 {
      assert rows[..k][1..] == rows[1..][..k - 1];
      NoneWithoutParents(rows[1..], k - 1);
    }
  }

  lemma {:induction false} BelowLast(rows: seq<Record>, i: nat)
    requires Ordered(rows) && i < |rows|
    ensures rows[i].atomic.value <= rows[|rows| - 1].atomic.value
    decreases |rows| - i
  {
    if i < |rows| - 1 {
      BelowLast(rows, i + 1);
    }
  }

  /** The rows of edit a are those from position k on. */
  ghost predicate TailFrom(rows: seq<Record>, k: nat, a: int) {
    && k <= |rows|
    && (forall i :: 0 <= i < k ==> rows[i].atomic.Some? && rows[i].atomic.value < a)
    && (forall i :: k <= i < |rows| ==> rows[i].atomic == Some(a))
  }

  lemma TailSame(init: seq<Record>, r: Record, k: nat, a: int)
    requires TailFrom(init, k, a) && SameEdit(init, Some(a)) == init[k..]
    requires r.atomic == Some(a)
    ensures TailFrom(init + [r], k, a) && SameEdit(init + [r], Some(a)) == (init + [r])[k..]
  {
    assert (init + [r])[k..] == init[k..] + [r];
    assert (init + [r])[..|init|] == init;
  }

  lemma TailEarlier(init: seq<Record>, r: Record, k: nat, a: int)
    requires TailFrom(init, k, a) && SameEdit(init, Some(a)) == init[k..]
    requires r.atomic.Some? && r.atomic.value < a
    requires |init| > 0 ==> init[|init| - 1].atomic != Some(a)
    ensures TailFrom(init + [r], |init| + 1, a) && SameEdit(init + [r], Some(a)) == []
  {
    assert k == |init|;
    assert (init + [r])[..|init|] == init;
  }

  /** The final edit of ordered rows is their tail, and all of it. */
  lemma {:induction false} SameEditIsTail(rows: seq<Record>, a: int) returns (k: nat)
    requires Ordered(rows)
    requires forall i :: 0 <= i < |rows| ==> rows[i].atomic.value <= a
    ensures TailFrom(rows, k, a) && SameEdit(rows, Some(a)) == rows[k..]
  {
    if |rows| == 0 {
      k := 0;
    } else {
      var init, r := rows[..|rows| - 1], rows[|rows| - 1];
      assert rows == init + [r];
      k := SameEditIsTail(init, a);
      hide SameEdit, TailFrom;
      if r.atomic == Some(a) {
        TailSame(init, r, k, a);
      } else {
        TailEarlier(init, r, k, a);
        k := |rows|;
      }
    }
  }

  // ----- One window -----

  /** A window's step splits what has been read since the checkpoint into whole
      edits to apply and a final edit to hold back. */
  ghost predicate GoodStep(log: seq<Record>, keep: Filter, c: Checkpoint, last: int, more: bool, step: Step) {
    match step
    case Refuse(_) => false
    case Wait(held) => held == Select(log, c.activity + 1, last, keep) && (!more ==> held == [])
    case Apply(ready, held) =>
      && |ready| > 0
      && c.activity < LastOf(ready).activity <= last
      && ready == Select(log, c.activity + 1, LastOf(ready).activity, keep)
      && held == Select(log, LastOf(ready).activity + 1, last, keep)
      && Boundary(log, keep, LastOf(ready))
      && (!more ==> held == [])
  }

  /** Where a window's rows are cut: before the final edit, or at the end. */
  ghost predicate CutBefore(rows: seq<Record>, k: nat, more: bool) {
    && k <= |rows|
    && (!more ==> k == |rows|)
    && (more && |rows| > 0 ==>
          k < |rows| && rows[|rows| - 1].atomic.Some? && TailFrom(rows, k, rows[|rows| - 1].atomic.value))
  }

  lemma HeldParts(rows: seq<Record>, more: bool) returns (k: nat)
    requires Ordered(rows)
    ensures CutBefore(rows, k, more)
    ensures HeldBack(rows, more) == rows[k..]
  {
    if more && |rows| > 0 {
      forall i | 0 <= i < |rows|
        ensures rows[i].atomic.value <= rows[|rows| - 1].atomic.value
      {
        BelowLast(rows, i);
      }
      k := SameEditIsTail(rows, rows[|rows| - 1].atomic.value);
    } else {
      k := |rows|;
    }
  }

  lemma AcceptedStep(rows: seq<Record>, k: nat, atomicDone: int, filtered: bool, more: bool)
    requires GroupsError(rows, atomicDone, filtered).None?
    requires k <= |rows| && HeldBack(rows, more) == rows[k..]
    requires FirstWithoutParents(rows[..k]).None?
    ensures WindowStep(rows, atomicDone, filtered, more) == if k == 0 then Wait(rows) else Apply(rows[..k], rows[k..])
  {
    hide GroupsError, FirstWithoutParents, HeldBack;
    assert |rows| - |rows[k..]| == k;
    assert rows[0..] == rows;
  }

  lemma WindowIsGood(log: seq<Record>, keep: Filter, filtered: bool, c: Checkpoint, last: int, latest: Checkpoint)
    requires WellFormed(log) && Boundary(log, keep, c) && Boundary(log, keep, latest)
    requires !filtered ==> KeepsAll(log, keep)
    requires c.activity <= last <= latest.activity
    ensures
      var more := last + 1 <= latest.activity;
      GoodStep(log, keep, c, last, more,
               WindowStep(Select(log, c.activity + 1, last, keep), c.atomic, filtered, more))
  {
    var rows := Select(log, c.activity + 1, last, keep);
    var more := last + 1 <= latest.activity;
    SelectOrdered(log, c.activity + 1, last, keep);
    assert Sorted(log);
    assert forall i :: 0 <= i < |rows| ==> rows[i].hasRelatedParents;
    GroupsAccepted(log, last, keep, filtered, c);
    var k := HeldParts(rows, more);
    hide *;
    NoneWithoutParents(rows, k);
    AcceptedStep(rows, k, c.atomic, filtered, more);
    if k == 0 {
      WaitIsGood(log, keep, c, last, more);
    } else {
      SelectRest(log, c.activity + 1, last, keep, k);
      NextBoundary(log, keep, c, last, latest, k);
      ApplyIsGood(log, keep, c, last, more, k);
    }
  }

  lemma WaitIsGood(log: seq<Record>, keep: Filter, c: Checkpoint, last: int, more: bool)
    requires CutBefore(Select(log, c.activity + 1, last, keep), 0, more)
    ensures GoodStep(log, keep, c, last, more, Wait(Select(log, c.activity + 1, last, keep)))
  {
  }

  lemma ApplyIsGood(log: seq<Record>, keep: Filter, c: Checkpoint, last: int, more: bool, k: nat)
    requires Sorted(log) && 0 < k <= |Select(log, c.activity + 1, last, keep)|
    requires CutBefore(Select(log, c.activity + 1, last, keep), k, more)
    requires Boundary(log, keep, LastOf(Select(log, c.activity + 1, last, keep)[..k]))
    ensures
      var rows := Select(log, c.activity + 1, last, keep);
      GoodStep(log, keep, c, last, more, Apply(rows[..k], rows[k..]))
  {
    hide Boundary, TailFrom, Select;
    SelectRest(log, c.activity + 1, last, keep, k);
  }

  /** The last row to apply ends an edit, as far as concerning records go. */
  lemma NextBoundary(log: seq<Record>, keep: Filter, c: Checkpoint, last: int, latest: Checkpoint, k: nat)
    requires WellFormed(log) && Boundary(log, keep, latest)
    requires last <= latest.activity
    requires 0 < k <= |Select(log, c.activity + 1, last, keep)|
    requires CutBefore(Select(log, c.activity + 1, last, keep), k, last < latest.activity)
    ensures Boundary(log, keep, LastOf(Select(log, c.activity + 1, last, keep)[..k]))
  {
    var rows := Select(log, c.activity + 1, last, keep);
    SelectContent(log, c.activity + 1, last, keep);
    hide Select, CutBefore, WellFormed;
    var z := rows[k - 1];
    assert z in rows;
    forall r | r in log && r.atomic.Some? && keep(r)
      ensures r.id <= z.id <==> r.atomic.value <= z.atomic.GetOr(0)
    {
      assert c.activity + 1 <= r.id <= last ==> r in rows;
      InOrder(log, r, z);
      if r.id > z.id {
        LaterEdit(log, keep, last, latest, rows, k, r);
      }
    }
  }

  lemma LaterEdit(log: seq<Record>, keep: Filter, last: int, latest: Checkpoint,
                  rows: seq<Record>, k: nat, r: Record)
    requires WellFormed(log) && Boundary(log, keep, latest)
    requires last <= latest.activity
    requires 0 < k <= |rows| && Sorted(rows)
    requires forall x :: x in rows ==> x in log && x.id <= last && keep(x)
    requires r in log && r.atomic.Some? && keep(r) && r.id > rows[k - 1].id
    requires r.id <= last ==> r in rows
    requires CutBefore(rows, k, last < latest.activity)
    ensures rows[k - 1].atomic.Some? && r.atomic.value > rows[k - 1].atomic.value
  {
    var z, f := rows[k - 1], rows[|rows| - 1];
    assert z in rows && f in rows;
    InOrder(log, r, z);
    InOrder(log, f, r);
    hide WellFormed;
    if r.id <= last {
      var j :| 0 <= j < |rows| && rows[j] == r;
      assert j >= k;
    }
  }

  lemma InOrder(log: seq<Record>, r: Record, s: Record)
    requires WellFormed(log) && r in log && s in log
    ensures r.atomic.Some? && s.atomic.Some?
    ensures r.id <= s.id ==> r.atomic.value <= s.atomic.value
    ensures s.id <= r.id ==> s.atomic.value <= r.atomic.value
  {
    var i :| 0 <= i < |log| && log[i] == r;
    var j :| 0 <= j < |log| && log[j] == s;
  }

  // ----- Whole runs -----

  /** Transactions that take an extract from checkpoint c to the latest edits,
      each applying all the concerning records up to its own checkpoint, which
      is that of its last row and between two edits. A transaction without rows
      only says that the extract has caught up. */
  ghost predicate CatchesUp(log: seq<Record>, keep: Filter, latest: Checkpoint, c: Checkpoint, txns: seq<Txn>)
    decreases |txns|
  {
    if |txns| == 0 then c.activity == latest.activity
    else
      var t := txns[0];
      && c.activity < t.checkpoint.activity <= latest.activity
      && t.rows == Select(log, c.activity + 1, t.checkpoint.activity, keep)
      && t.checkpoint == (if |t.rows| > 0 then LastOf(t.rows) else latest)
      && Boundary(log, keep, t.checkpoint)
      && CatchesUp(log, keep, latest, t.checkpoint, txns[1..])
  }

  /** What a run still has to do when it has read everything before position. */
  ghost predicate HasRead(log: seq<Record>, latest: Checkpoint, keep: Filter, position: int, held: seq<Record>,
                          c: Checkpoint)
  {
    && c.activity < position <= latest.activity + 1
    && held == Select(log, c.activity + 1, position - 1, keep)
    && (position > latest.activity ==> held == [])
  }

  /** The rows of a window are those since the checkpoint; its step is that of WindowIsGood. */
  lemma ReadNext(log: seq<Record>, latest: Checkpoint, keep: Filter, window: nat, position: int, held: seq<Record>,
                 c: Checkpoint)
    requires Sorted(log) && window >= 1 && position <= latest.activity
    requires HasRead(log, latest, keep, position, held, c)
    ensures
      var last := WindowEnd(position, window, latest);
      && c.activity <= last <= latest.activity
      && held + Select(log, position, last, keep) == Select(log, c.activity + 1, last, keep)
  {
    SelectSplit(log, c.activity + 1, position - 1, WindowEnd(position, window, latest), keep);
  }

  lemma StillToRead(log: seq<Record>, latest: Checkpoint, keep: Filter, last: int, c: Checkpoint, step: Step)
    requires c.activity <= last <= latest.activity
    requires GoodStep(log, keep, c, last, last + 1 <= latest.activity, step)
    ensures step.Wait? ==> HasRead(log, latest, keep, last + 1, step.held, c)
    ensures step.Apply? ==> |step.rows| > 0 && HasRead(log, latest, keep, last + 1, step.held, LastOf(step.rows))
  {
    hide Select, Boundary;
  }

  lemma CatchesUpNext(log: seq<Record>, keep: Filter, latest: Checkpoint, c: Checkpoint, last: int, more: bool,
                      step: Step, rest: seq<Txn>)
    requires last <= latest.activity && GoodStep(log, keep, c, last, more, step) && step.Apply?
    requires CatchesUp(log, keep, latest, LastOf(step.rows), rest)
    ensures CatchesUp(log, keep, latest, c, [Txn(step.rows, LastOf(step.rows))] + rest)
  {
    hide Select, Boundary;
    assert ([Txn(step.rows, LastOf(step.rows))] + rest)[1..] == rest;
  }

  /** A window is never refused, and leaves a run that has read up to its end. */
  lemma NextStep(log: seq<Record>, latest: Checkpoint, keep: Filter, filtered: bool, window: nat, position: int,
                 held: seq<Record>, c: Checkpoint) returns (last: int, step: Step)
    requires WellFormed(log) && window >= 1 && position <= latest.activity
    requires Boundary(log, keep, c) && Boundary(log, keep, latest)
    requires !filtered ==> KeepsAll(log, keep)
    requires HasRead(log, latest, keep, position, held, c)
    ensures last == WindowEnd(position, window, latest)
    ensures step == WindowStep(held + Select(log, position, last, keep), c.atomic, filtered,
                               last + 1 <= latest.activity)
    ensures position <= last <= latest.activity && GoodStep(log, keep, c, last, last + 1 <= latest.activity, step)
    ensures !step.Refuse?
    ensures step.Wait? ==> HasRead(log, latest, keep, last + 1, step.held, c)
    ensures step.Apply? ==>
      && |step.rows| > 0 && Boundary(log, keep, LastOf(step.rows))
      && HasRead(log, latest, keep, last + 1, step.held, LastOf(step.rows))
  {
    last := WindowEnd(position, window, latest);
    var more := last + 1 <= latest.activity;
    ReadNext(log, latest, keep, window, position, held, c);
    WindowIsGood(log, keep, filtered, c, last, latest);
    step := WindowStep(Select(log, c.activity + 1, last, keep), c.atomic, filtered, more);
    hide Select, WindowStep, WellFormed, Boundary, KeepsAll, HasRead;
    StillToRead(log, latest, keep, last, c, step);
  }

  /** One turn of the loop. */
  lemma WindowsTurn(log: seq<Record>, latest: Checkpoint, keep: Filter, filtered: bool, window: nat, position: int,
                    held: seq<Record>, c: Checkpoint, last: int, step: Step)
    requires window >= 1 && position <= latest.activity
    requires last == WindowEnd(position, window, latest)
    requires step == WindowStep(held + Select(log, position, last, keep), c.atomic, filtered,
                                last + 1 <= latest.activity)
    ensures
      var now := Windows(log, latest, keep, filtered, window, position, held, c);
      && last >= position
      && (step.Refuse? ==> now == Plan([], Some(step.error)))
      && (step.Wait? ==> now == Windows(log, latest, keep, filtered, window, last + 1, step.held, c))
      && (step.Apply? && |step.rows| == 0 ==> now == Plan([], None))
      && (step.Apply? && |step.rows| > 0 ==>
            var rest := Windows(log, latest, keep, filtered, window, last + 1, step.held, LastOf(step.rows));
            now == Plan([Txn(step.rows, LastOf(step.rows))] + rest.txns, rest.error))
  {
    hide WindowStep, Select, LastOf;
  }

  lemma {:induction false} WindowsCatchUp(log: seq<Record>, latest: Checkpoint, keep: Filter, filtered: bool,
                                          window: nat, position: int, held: seq<Record>, c: Checkpoint)
    requires WellFormed(log) && window >= 1
    requires Boundary(log, keep, c) && Boundary(log, keep, latest)
    requires !filtered ==> KeepsAll(log, keep)
    requires HasRead(log, latest, keep, position, held, c)
    ensures
      var plan := Windows(log, latest, keep, filtered, window, position, held, c);
      plan.error.None? && CatchesUp(log, keep, latest, c, plan.txns)
    decreases latest.activity - position + 1
  {
    hide *;
    if position > latest.activity {
      CaughtUp(log, latest, keep, filtered, window, position, held, c);
    } else {
      var last, step := NextStep(log, latest, keep, filtered, window, position, held, c);
      WindowsTurn(log, latest, keep, filtered, window, position, held, c, last, step);
      if step.Wait? {
        WindowsCatchUp(log, latest, keep, filtered, window, last + 1, step.held, c);
      } else {
        WindowsCatchUp(log, latest, keep, filtered, window, last + 1, step.held, LastOf(step.rows));
        CatchesUpNext(log, keep, latest, c, last, last + 1 <= latest.activity, step,
                      Windows(log, latest, keep, filtered, window, last + 1, step.held, LastOf(step.rows)).txns);
      }
    }
  }

  lemma CaughtUp(log: seq<Record>, latest: Checkpoint, keep: Filter, filtered: bool, window: nat, position: int,
                 held: seq<Record>, c: Checkpoint)
    requires window >= 1 && position > latest.activity
    requires Boundary(log, keep, latest) && HasRead(log, latest, keep, position, held, c)
    ensures
      var plan := Windows(log, latest, keep, filtered, window, position, held, c);
      plan.error.None? && CatchesUp(log, keep, latest, c, plan.txns)
  {
    if c.activity < latest.activity {
      assert [Txn([], latest)][1..] == [];
      assert CatchesUp(log, keep, latest, latest, []);
    }
  }

  lemma StartOfRun(log: seq<Record>, latest: Checkpoint, keep: Filter, filtered: bool, window: nat, c: Checkpoint)
    requires window >= 1 && c.activity <= latest.activity && c.atomic <= latest.atomic
    ensures HasRead(log, latest, keep, c.activity + 1, [], c)
    ensures RunPlan(log, latest, keep, filtered, window, c) ==
      Windows(log, latest, keep, filtered, window, c.activity + 1, [], c)
  {
    hide Windows;
    SelectEmptyRange(log, c.activity + 1, c.activity, keep);
  }

  /** For any window, a run over a log of whole edits is never refused, and its
      transactions take the extract from its checkpoint to the latest edits. */
  lemma RunCatchesUp(log: seq<Record>, latest: Checkpoint, keep: Filter, filtered: bool, window: nat, c: Checkpoint)
    requires WellFormed(log) && window >= 1
    requires Boundary(log, keep, c) && Boundary(log, keep, latest)
    requires !filtered ==> KeepsAll(log, keep)
    requires c.activity <= latest.activity && c.atomic <= latest.atomic
    ensures
      var plan := RunPlan(log, latest, keep, filtered, window, c);
      plan.error.None? && CatchesUp(log, keep, latest, c, plan.txns)
  {
    hide *;
    StartOfRun(log, latest, keep, filtered, window, c);
    WindowsCatchUp(log, latest, keep, filtered, window, c.activity + 1, [], c);
  }

  // ----- Stopping and starting again -----

  /** Exactly the concerning records from one checkpoint to another have been applied. */
  ghost predicate AppliedUpTo(log: seq<Record>, keep: Filter, c: Checkpoint, end: Checkpoint, applied: seq<Record>) {
    c.activity <= end.activity && applied == Select(log, c.activity + 1, end.activity, keep) && Boundary(log, keep, end)
  }

  lemma AppliedNext(log: seq<Record>, keep: Filter, c: Checkpoint, mid: Checkpoint, end: Checkpoint,
                    applied: seq<Record>, more: seq<Record>)
    requires WellFormed(log)
    requires AppliedUpTo(log, keep, c, mid, applied) && AppliedUpTo(log, keep, mid, end, more)
    ensures AppliedUpTo(log, keep, c, end, applied + more)
  {
    SelectSplit(log, c.activity + 1, mid.activity, end.activity, keep);
  }

  lemma AppliedNothing(log: seq<Record>, keep: Filter, c: Checkpoint)
    requires Boundary(log, keep, c)
    ensures AppliedUpTo(log, keep, c, c, [])
  {
    SelectEmptyRange(log, c.activity + 1, c.activity, keep);
  }

  lemma FirstTxn(log: seq<Record>, keep: Filter, latest: Checkpoint, c: Checkpoint, txns: seq<Txn>)
    requires CatchesUp(log, keep, latest, c, txns) && |txns| > 0
    ensures AppliedUpTo(log, keep, c, txns[0].checkpoint, txns[0].rows)
    ensures CatchesUp(log, keep, latest, txns[0].checkpoint, txns[1..])
    ensures Boundary(log, keep, txns[0].checkpoint) && txns[0].checkpoint.activity <= latest.activity
  {
  }

  lemma PrefixOfTxns(c: Checkpoint, txns: seq<Txn>, k: nat)
    requires 0 < k <= |txns|
    ensures End(c, txns[..k]) == End(txns[0].checkpoint, txns[1..][..k - 1])
    ensures Flatten(txns[..k]) == txns[0].rows + Flatten(txns[1..][..k - 1])
    ensures txns[k..] == txns[1..][k - 1..]
  {
    assert txns[..k][1..] == txns[1..][..k - 1];
  }

  /** However many of its transactions a run lives to commit, it has applied
      exactly the concerning records up to the checkpoint it leaves, and the
      rest of its transactions would take it from there to the latest edits. */
  lemma {:induction false} StoppedAfter(log: seq<Record>, keep: Filter, latest: Checkpoint, c: Checkpoint,
                                        txns: seq<Txn>, k: nat)
    requires WellFormed(log) && Boundary(log, keep, c) && c.activity <= latest.activity
    requires CatchesUp(log, keep, latest, c, txns) && k <= |txns|
    ensures AppliedUpTo(log, keep, c, End(c, txns[..k]), Flatten(txns[..k]))
    ensures CatchesUp(log, keep, latest, End(c, txns[..k]), txns[k..])
    ensures End(c, txns[..k]).activity <= latest.activity
    decreases k
  {
    if k == 0 {
      assert txns[0..] == txns;
      AppliedNothing(log, keep, c);
    } else {
      FirstTxn(log, keep, latest, c, txns);
      PrefixOfTxns(c, txns, k);
    }
    hide *;
    if k > 0 {
      var t := txns[0];
      StoppedAfter(log, keep, latest, t.checkpoint, txns[1..], k - 1);
      AppliedNext(log, keep, c, t.checkpoint, End(c, txns[..k]), t.rows, Flatten(txns[1..][..k - 1]));
    }
  }

  /** No edit is split: the edits of one transaction all come before those of a later one. */
  lemma NoEditSplit(log: seq<Record>, keep: Filter, latest: Checkpoint, c: Checkpoint, txns: seq<Txn>,
                    i: nat, j: nat, r: Record, s: Record)
    requires WellFormed(log) && Boundary(log, keep, c) && c.activity <= latest.activity
    requires CatchesUp(log, keep, latest, c, txns)
    requires i < j < |txns| && r in txns[i].rows && s in txns[j].rows
    ensures r.atomic.Some? && s.atomic.Some? && r.atomic.value < s.atomic.value
  {
    RowsOfTxn(log, keep, latest, c, txns, i, r);
    RowsOfTxn(log, keep, latest, c, txns, j, s);
    CheckpointsRise(log, keep, latest, c, txns, i + 1, j);
  }

  /** Transaction i goes on from the checkpoint of the one before it. */
  lemma TxnAt(log: seq<Record>, keep: Filter, latest: Checkpoint, c: Checkpoint, txns: seq<Txn>, i: nat)
    requires WellFormed(log) && Boundary(log, keep, c) && c.activity <= latest.activity
    requires CatchesUp(log, keep, latest, c, txns) && i < |txns|
    ensures
      var from, t := End(c, txns[..i]), txns[i];
      && t.checkpoint == End(c, txns[..i + 1])
      && from.activity < t.checkpoint.activity <= latest.activity
      && t.rows == Select(log, from.activity + 1, t.checkpoint.activity, keep)
      && t.checkpoint == (if |t.rows| > 0 then LastOf(t.rows) else latest)
      && Boundary(log, keep, from) && Boundary(log, keep, t.checkpoint)
  {
    StoppedAfter(log, keep, latest, c, txns, i);
    assert txns[i..][0] == txns[i];
  }

  lemma RowsOfTxn(log: seq<Record>, keep: Filter, latest: Checkpoint, c: Checkpoint, txns: seq<Txn>, i: nat, r: Record)
    requires WellFormed(log) && Boundary(log, keep, c) && c.activity <= latest.activity
    requires CatchesUp(log, keep, latest, c, txns)
    requires i < |txns| && r in txns[i].rows
    ensures r in log && r.atomic.Some? && End(c, txns[..i]).activity < r.id <= End(c, txns[..i + 1]).activity
    ensures End(c, txns[..i]).atomic < r.atomic.value <= End(c, txns[..i + 1]).atomic
  {
    TxnAt(log, keep, latest, c, txns, i);
    hide CatchesUp, End, Select;
    SelectContent(log, End(c, txns[..i]).activity + 1, txns[i].checkpoint.activity, keep);
    InOrder(log, r, r);
  }

  lemma {:induction false} CheckpointsRise(log: seq<Record>, keep: Filter, latest: Checkpoint, c: Checkpoint,
                                           txns: seq<Txn>, i: nat, j: nat)
    requires WellFormed(log) && Boundary(log, keep, c) && c.activity <= latest.activity
    requires CatchesUp(log, keep, latest, c, txns)
    requires 0 < i <= j < |txns|
    ensures End(c, txns[..i]).atomic <= End(c, txns[..j]).atomic
    decreases j - i
  {
    if i < j {
      CheckpointsRise(log, keep, latest, c, txns, i, j - 1);
      TxnAt(log, keep, latest, c, txns, j - 1);
      TxnAt(log, keep, latest, c, txns, j);
      var t := txns[j - 1];
      if |t.rows| > 0 {
        RowsOfTxn(log, keep, latest, c, txns, j - 1, t.rows[|t.rows| - 1]);
      }
    }
  }

  /** One run from wherever the extract was left: until it has committed stop
      transactions, or has finished. */
  datatype Attempt = Attempt(latest: Checkpoint, window: nat, stop: nat)

  ghost function Attempted(log: seq<Record>, keep: Filter, filtered: bool, a: Attempt, c: Checkpoint): seq<Txn>
    requires a.window >= 1
  {
    var txns := RunPlan(log, a.latest, keep, filtered, a.window, c).txns;
    if a.stop < |txns| then txns[..a.stop] else txns
  }

  /** The checkpoint and the records applied after a series of attempts. */
  ghost function AfterAttempts(log: seq<Record>, keep: Filter, filtered: bool, attempts: seq<Attempt>,
                               c: Checkpoint): (Checkpoint, seq<Record>)
    requires forall a :: a in attempts ==> a.window >= 1
  {
    if |attempts| == 0 then (c, [])
    else
      var init, a := attempts[..|attempts| - 1], attempts[|attempts| - 1];
      var before := AfterAttempts(log, keep, filtered, init, c);
      var txns := Attempted(log, keep, filtered, a, before.0);
      (End(before.0, txns), before.1 + Flatten(txns))
  }

  /** The map's latest IDs: its edits up to them are whole, and the atomic ID is
      that of the record the activity ID names. */
  ghost predicate IsLatest(log: seq<Record>, keep: Filter, latest: Checkpoint) {
    && Boundary(log, keep, latest)
    && forall r :: r in log && r.id == latest.activity ==> r.atomic == Some(latest.atomic)
  }

  ghost predicate NoLater(c: Checkpoint, d: Checkpoint) {
    c.activity <= d.activity && c.atomic <= d.atomic && (c.activity == d.activity ==> c == d)
  }

  /** Attempts made as the log grows, the first from checkpoint c. */
  ghost predicate Attempts(log: seq<Record>, keep: Filter, attempts: seq<Attempt>, c: Checkpoint) {
    && (forall a :: a in attempts ==> a.window >= 1)
    && (forall i :: 0 <= i < |attempts| ==> IsLatest(log, keep, attempts[i].latest) && NoLater(c, attempts[i].latest))
    && (forall i, j :: 0 <= i <= j < |attempts| ==> NoLater(attempts[i].latest, attempts[j].latest))
  }

  /** An update stopped and started again any number of times, with any windows,
      while the log grows, has applied each concerning record since the first
      checkpoint once and in order, up to the checkpoint it has reached. */
  lemma {:induction false} EachRecordOnce(log: seq<Record>, keep: Filter, filtered: bool, attempts: seq<Attempt>,
                                          c: Checkpoint)
    requires WellFormed(log) && Boundary(log, keep, c) && Attempts(log, keep, attempts, c)
    requires !filtered ==> KeepsAll(log, keep)
    ensures
      var (end, applied) := AfterAttempts(log, keep, filtered, attempts, c);
      && AppliedUpTo(log, keep, c, end, applied)
      && (|attempts| == 0 ==> end == c)
      && (|attempts| > 0 ==> NoLater(end, attempts[|attempts| - 1].latest))
  {
    if |attempts| == 0 {
      AppliedNothing(log, keep, c);
    } else {
      var init, a := attempts[..|attempts| - 1], attempts[|attempts| - 1];
      AttemptsInit(log, keep, attempts, c);
      EachRecordOnce(log, keep, filtered, init, c);
      var before := AfterAttempts(log, keep, filtered, init, c);
      assert Boundary(log, keep, before.0);
      hide WellFormed, Boundary, Attempts, IsLatest, NoLater, KeepsAll, Attempted, AppliedUpTo;
      NoLaterNext(log, keep, attempts, c, before.0);
      var end := AttemptEnd(log, keep, filtered, a, before.0);
      AppliedNext(log, keep, c, before.0, end, before.1, Flatten(Attempted(log, keep, filtered, a, before.0)));
    }
  }

  lemma AttemptsInit(log: seq<Record>, keep: Filter, attempts: seq<Attempt>, c: Checkpoint)
    requires Attempts(log, keep, attempts, c) && |attempts| > 0
    ensures
      var init, a := attempts[..|attempts| - 1], attempts[|attempts| - 1];
      && Attempts(log, keep, init, c)
      && (forall x :: x in init ==> x.window >= 1)
      && a.window >= 1 && IsLatest(log, keep, a.latest)
  {
    var init := attempts[..|attempts| - 1];
    assert forall x :: x in init ==> x in attempts;
    assert forall i :: 0 <= i < |init| ==> init[i] == attempts[i];
    assert attempts[|attempts| - 1] in attempts;
  }

  /** The map has not gone back since the extract got to where it is. */
  lemma NoLaterNext(log: seq<Record>, keep: Filter, attempts: seq<Attempt>, c: Checkpoint, before: Checkpoint)
    requires Attempts(log, keep, attempts, c) && |attempts| > 0
    requires |attempts| == 1 ==> before == c
    requires |attempts| > 1 ==> NoLater(before, attempts[..|attempts| - 1][|attempts| - 2].latest)
    ensures NoLater(before, attempts[|attempts| - 1].latest)
  {
    if |attempts| > 1 {
      assert NoLater(attempts[|attempts| - 2].latest, attempts[|attempts| - 1].latest);
    }
  }

  /** One attempt, stopped or not. */
  lemma AttemptEnd(log: seq<Record>, keep: Filter, filtered: bool, a: Attempt, c: Checkpoint) returns (end: Checkpoint)
    requires WellFormed(log) && Boundary(log, keep, c)
    requires a.window >= 1 && IsLatest(log, keep, a.latest) && NoLater(c, a.latest)
    requires !filtered ==> KeepsAll(log, keep)
    ensures
      var txns := Attempted(log, keep, filtered, a, c);
      && end == End(c, txns)
      && AppliedUpTo(log, keep, c, end, Flatten(txns))
      && NoLater(end, a.latest)
    ensures a.stop >= |RunPlan(log, a.latest, keep, filtered, a.window, c).txns| ==> end == a.latest
  {
    var txns := RunPlan(log, a.latest, keep, filtered, a.window, c).txns;
    RunCatchesUp(log, a.latest, keep, filtered, a.window, c);
    var k := if a.stop < |txns| then a.stop else |txns|;
    StoppedAfter(log, keep, a.latest, c, txns, k);
    assert txns[..|txns|] == txns;
    end := End(c, txns[..k]);
    EndIsNoLater(log, keep, a.latest, c, txns, k);
  }

  lemma EndIsNoLater(log: seq<Record>, keep: Filter, latest: Checkpoint, c: Checkpoint, txns: seq<Txn>, k: nat)
    requires WellFormed(log) && Boundary(log, keep, c) && IsLatest(log, keep, latest) && NoLater(c, latest)
    requires CatchesUp(log, keep, latest, c, txns) && k <= |txns|
    ensures NoLater(End(c, txns[..k]), latest)
  {
    if k > 0 {
      TxnAt(log, keep, latest, c, txns, k - 1);
      var t := txns[k - 1];
      if |t.rows| > 0 {
        RowsOfTxn(log, keep, latest, c, txns, k - 1, t.rows[|t.rows| - 1]);
        hide CatchesUp, WellFormed, End, Select;
      }
    }
  }

  /** Stopped any number of times and at last left to finish, an update ends at
      the same checkpoint, with the same records applied, as a single run from
      the first checkpoint that is never stopped. */
  lemma SameEndAsUninterrupted(log: seq<Record>, keep: Filter, filtered: bool, attempts: seq<Attempt>, c: Checkpoint,
                               window: nat)
    requires WellFormed(log) && Boundary(log, keep, c) && Attempts(log, keep, attempts, c)
    requires !filtered ==> KeepsAll(log, keep)
    requires |attempts| > 0 && window >= 1
    requires
      var init, a := attempts[..|attempts| - 1], attempts[|attempts| - 1];
      (forall x :: x in init ==> x.window >= 1) && a.window >= 1 &&
      var before := AfterAttempts(log, keep, filtered, init, c).0;
      a.stop >= |RunPlan(log, a.latest, keep, filtered, a.window, before).txns|
    ensures
      var latest := attempts[|attempts| - 1].latest;
      var plan := RunPlan(log, latest, keep, filtered, window, c);
      && plan.error.None?
      && AfterAttempts(log, keep, filtered, attempts, c) == (End(c, plan.txns), Flatten(plan.txns))
      && End(c, plan.txns) == latest
  {
    var init, a := attempts[..|attempts| - 1], attempts[|attempts| - 1];
    AttemptsInit(log, keep, attempts, c);
    EachRecordOnce(log, keep, filtered, init, c);
    EachRecordOnce(log, keep, filtered, attempts, c);
    var before := AfterAttempts(log, keep, filtered, init, c).0;
    NoLaterNext(log, keep, attempts, c, before);
    assert NoLater(c, a.latest);
    var end := AttemptEnd(log, keep, filtered, a, before);
    var whole := Attempt(a.latest, window, |RunPlan(log, a.latest, keep, filtered, window, c).txns|);
    var single := AttemptEnd(log, keep, filtered, whole, c);
    RunCatchesUp(log, a.latest, keep, filtered, window, c);
  }

  // ----- Edits made while a run is under way -----

  /** Records added after the latest IDs were read make no difference to a run,
      so runs over a growing log may be compared on the log as it ends up. */
  lemma {:induction false} LaterEditsIgnored(log: seq<Record>, more: seq<Record>, latest: Checkpoint, keep: Filter,
                                             filtered: bool, window: nat, position: int, held: seq<Record>,
                                             c: Checkpoint)
    requires window >= 1
    requires forall r :: r in more ==> latest.activity < r.id
    ensures Windows(log + more, latest, keep, filtered, window, position, held, c) ==
      Windows(log, latest, keep, filtered, window, position, held, c)
    decreases latest.activity - position + 1
  {
    hide *;
    if position <= latest.activity {
      var last := WindowEnd(position, window, latest);
      ReadsNothingLater(log, more, latest, keep, window, position);
      var step := WindowStep(held + Select(log, position, last, keep), c.atomic, filtered, last + 1 <= latest.activity);
      WindowsTurn(log, latest, keep, filtered, window, position, held, c, last, step);
      WindowsTurn(log + more, latest, keep, filtered, window, position, held, c, last, step);
      if step.Wait? {
        LaterEditsIgnored(log, more, latest, keep, filtered, window, last + 1, step.held, c);
      } else if step.Apply? && |step.rows| > 0 {
        LaterEditsIgnored(log, more, latest, keep, filtered, window, last + 1, step.held, LastOf(step.rows));
      }
    } else {
      NothingToRead(log, latest, keep, filtered, window, position, held, c);
      NothingToRead(log + more, latest, keep, filtered, window, position, held, c);
    }
  }

  lemma ReadsNothingLater(log: seq<Record>, more: seq<Record>, latest: Checkpoint, keep: Filter, window: nat,
                          position: int)
    requires forall r :: r in more ==> latest.activity < r.id
    ensures
      var last := WindowEnd(position, window, latest);
      Select(log + more, position, last, keep) == Select(log, position, last, keep)
  {
    SelectAppend(log, more, position, WindowEnd(position, window, latest), keep);
  }

  lemma NothingToRead(log: seq<Record>, latest: Checkpoint, keep: Filter, filtered: bool, window: nat, position: int,
                      held: seq<Record>, c: Checkpoint)
    requires window >= 1 && position > latest.activity
    ensures Windows(log, latest, keep, filtered, window, position, held, c) ==
      Plan(if c.activity < latest.activity then [Txn([], latest)] else [], None)
  {
  }
}
