/** An update of an extract: it goes through the log window by window, and each transaction commits
    whole edits and the checkpoint after them. */
module ExtractUpdate {
  import opened Wrappers
  import opened EditLog
  import opened Sets
  import ActivityPages

  /** A place in the log: the ID of a record, and of the atomic edit that it completes. */
  datatype Checkpoint = Checkpoint(activity: int, atomic: int)

  /** One committed patching transaction. */
  datatype Txn = Txn(rows: seq<Record>, checkpoint: Checkpoint)

  datatype UpdateError =
    | SourceReset
    | Ungrouped(id: int)
    | IncompleteEdit
    | NoRelatedParents(id: int)
    | Stopped

  // ----- check_groups -----

  predicate Grouped(r: Record, atomicDone: int) {
    r.atomic.Some? && r.index.Some? && r.atomic.value > atomicDone
  }

  function FirstUngrouped(rows: seq<Record>, atomicDone: int): Option<int> {
    if |rows| == 0 then None
    else if !Grouped(rows[0], atomicDone) then Some(rows[0].id)
    else FirstUngrouped(rows[1..], atomicDone)
  }

  /** The block indexes of one edit among some rows, in order. */
  function Indexes(rows: seq<Record>, atomic: int): seq<int> {
    if |rows| == 0 then []
    else
      var r := rows[|rows| - 1];
      Indexes(rows[..|rows| - 1], atomic) +
      (if r.atomic == Some(atomic) && r.index.Some? then [r.index.value] else [])
  }

  function Range(n: nat): seq<int> {
    seq(n, i => i)
  }

  predicate NoDuplicates(s: seq<int>) {
    forall i, j :: 0 <= i < j < |s| ==> s[i] != s[j]
  }

  /** The blocks of one edit are all different and, if nothing was filtered out, are numbered 0, 1,
      2 and on. */
  predicate WholeGroup(indexes: seq<int>, filtered: bool) {
    NoDuplicates(indexes) && (filtered || multiset(indexes) == multiset(Range(|indexes|)))
  }

  ghost predicate WholeGroups(rows: seq<Record>, filtered: bool) {
    forall r :: r in rows && r.atomic.Some? ==> WholeGroup(Indexes(rows, r.atomic.value), filtered)
  }

  ghost function GroupsError(rows: seq<Record>, atomicDone: int, filtered: bool): Option<UpdateError> {
    var bad := FirstUngrouped(rows, atomicDone);
    if bad.Some? then Some(Ungrouped(bad.value))
    else if WholeGroups(rows, filtered) then None
    else Some(IncompleteEdit)
  }

  lemma {:induction false} FirstUngroupedPrefix(rows: seq<Record>, atomicDone: int, i: nat)
    requires i < |rows|
    requires forall k :: 0 <= k < i ==> Grouped(rows[k], atomicDone)
    requires !Grouped(rows[i], atomicDone)
    ensures FirstUngrouped(rows, atomicDone) == Some(rows[i].id)
  {
    if i > 0 {
      FirstUngroupedPrefix(rows[1..], atomicDone, i - 1);
    }
  }

  lemma {:induction false} AllGrouped(rows: seq<Record>, atomicDone: int)
    requires forall r :: r in rows ==> Grouped(r, atomicDone)
    ensures FirstUngrouped(rows, atomicDone).None?
  {
    if |rows| > 0 {
      AllGrouped(rows[1..], atomicDone);
    }
  }

  /** groups.setdefault(atomic, []).append(index) */
  function AddIndex(groups: map<int, seq<int>>, atomic: int, index: int): map<int, seq<int>> {
    groups[atomic := (if atomic in groups then groups[atomic] else []) + [index]]
  }

  /** The dictionary that check_groups builds. */
  function Groups(rows: seq<Record>): map<int, seq<int>> {
    if |rows| == 0 then map[]
    else
      var r := rows[|rows| - 1];
      AddIndex(Groups(rows[..|rows| - 1]), r.atomic.GetOr(0), r.index.GetOr(0))
  }

  /** The dictionary holds, for each edit seen and no other, its indexes. */
  lemma {:induction false} GroupAt(rows: seq<Record>, atomicDone: int, a: int)
    requires forall k :: 0 <= k < |rows| ==> Grouped(rows[k], atomicDone)
    ensures (if a in Groups(rows) then Groups(rows)[a] else []) == Indexes(rows, a)
  {
    if |rows| > 0 {
      GroupAt(rows[..|rows| - 1], atomicDone, a);
    }
  }

  lemma {:induction false} GroupSeen(rows: seq<Record>, k: nat)
    requires k < |rows|
    ensures rows[k].atomic.GetOr(0) in Groups(rows)
  {
    if k < |rows| - 1 {
      GroupSeen(rows[..|rows| - 1], k);
    }
  }

  lemma {:induction false} GroupOrigin(rows: seq<Record>, a: int) returns (k: nat)
    requires a in Groups(rows)
    ensures k < |rows| && rows[k].atomic.GetOr(0) == a
  {
    if rows[|rows| - 1].atomic.GetOr(0) == a {
      k := |rows| - 1;
    } else {
      k := GroupOrigin(rows[..|rows| - 1], a);
    }
  }

  ghost predicate EveryGroupWhole(groups: map<int, seq<int>>, filtered: bool) {
    forall a :: a in groups ==> WholeGroup(groups[a], filtered)
  }

  lemma GroupsDecide(rows: seq<Record>, atomicDone: int, filtered: bool)
    requires forall k :: 0 <= k < |rows| ==> Grouped(rows[k], atomicDone)
    ensures EveryGroupWhole(Groups(rows), filtered) <==> WholeGroups(rows, filtered)
  {
    if WholeGroups(rows, filtered) {
      forall a | a in Groups(rows)
        ensures WholeGroup(Groups(rows)[a], filtered)
      {
        var k := GroupOrigin(rows, a);
        assert rows[k] in rows;
        GroupAt(rows, atomicDone, a);
      }
    }
    if EveryGroupWhole(Groups(rows), filtered) {
      forall r | r in rows && r.atomic.Some?
        ensures WholeGroup(Indexes(rows, r.atomic.value), filtered)
      {
        var k :| 0 <= k < |rows| && rows[k] == r;
        GroupSeen(rows, k);
        GroupAt(rows, atomicDone, r.atomic.value);
      }
    }
  }

  /** Decides GroupsError by one pass over the rows and one over the groups it has made. */
  method CheckGroups(rows: seq<Record>, atomicDone: int, filtered: bool) returns (error: Option<UpdateError>)
    ensures error == GroupsError(rows, atomicDone, filtered)
  {
    var groups: map<int, seq<int>> := map[];
    for i := 0 to |rows|
      invariant forall k :: 0 <= k < i ==> Grouped(rows[k], atomicDone)
      invariant groups == Groups(rows[..i])
    {
      var r := rows[i];
      if !Grouped(r, atomicDone) {
        FirstUngroupedPrefix(rows, atomicDone, i);
        return Some(Ungrouped(r.id));
      }
      groups := AddIndex(groups, r.atomic.value, r.index.value);
      assert rows[..i + 1][..i] == rows[..i];
    }
    assert rows[..|rows|] == rows;
    var whole := AllWhole(groups, filtered);
    AllGrouped(rows, atomicDone);
    GroupsDecide(rows, atomicDone, filtered);
    error := if whole then None else Some(IncompleteEdit);
  }

  method AllWhole(groups: map<int, seq<int>>, filtered: bool) returns (whole: bool)
    ensures whole <==> EveryGroupWhole(groups, filtered)
  {
    var atomics := groups.Keys;
    while atomics != {}
      invariant atomics <= groups.Keys
      invariant forall a :: a in groups && a !in atomics ==> WholeGroup(groups[a], filtered)
      decreases |atomics|
    {
      var a := Pick(atomics);
      if !WholeGroup(groups[a], filtered) {
        return false;
      }
      atomics := atomics - {a};
    }
    return true;
  }

  // ----- The plan of a run: which transactions it commits -----

  datatype Plan = Plan(txns: seq<Txn>, error: Option<UpdateError>)

  function SameEdit(rows: seq<Record>, atomic: Option<int>): seq<Record> {
    if |rows| == 0 then []
    else
      var r := rows[|rows| - 1];
      SameEdit(rows[..|rows| - 1], atomic) + (if r.atomic == atomic then [r] else [])
  }

  lemma {:induction false} SameEditFits(rows: seq<Record>, atomic: Option<int>)
    ensures |SameEdit(rows, atomic)| <= |rows|
  {
    if |rows| > 0 {
      SameEditFits(rows[..|rows| - 1], atomic);
    }
  }

  function FirstWithoutParents(rows: seq<Record>): Option<int> {
    if |rows| == 0 then None
    else if !rows[0].hasRelatedParents then Some(rows[0].id)
    else FirstWithoutParents(rows[1..])
  }

  function WindowEnd(position: int, window: nat, latest: Checkpoint): int {
    if position + window - 1 < latest.activity then position + window - 1 else latest.activity
  }

  /** The end of a window that is kept for later: the rows of the last row's edit, unless no window
      follows. */
  function HeldBack(rows: seq<Record>, more: bool): (held: seq<Record>)
    ensures |held| <= |rows|
  {
    if more && |rows| > 0 then
      SameEditFits(rows, rows[|rows| - 1].atomic);
      SameEdit(rows, rows[|rows| - 1].atomic)
    else []
  }

  function LastOf(rows: seq<Record>): Checkpoint
    requires |rows| > 0
  {
    Checkpoint(rows[|rows| - 1].id, rows[|rows| - 1].atomic.GetOr(0))
  }

  /** What to do with the rows of one window, those held back before it included. */
  datatype Step =
    | Refuse(error: UpdateError)
    | Wait(held: seq<Record>)
    | Apply(rows: seq<Record>, held: seq<Record>)

  ghost function WindowStep(rows: seq<Record>, atomicDone: int, filtered: bool, more: bool): Step {
    var error := GroupsError(rows, atomicDone, filtered);
    if error.Some? then Refuse(error.value)
    else
      var held := HeldBack(rows, more);
      var ready := rows[..|rows| - |held|];
      if |ready| == 0 then Wait(held)
      else if FirstWithoutParents(ready).Some? then Refuse(NoRelatedParents(FirstWithoutParents(ready).value))
      else Apply(ready, held)
  }

  ghost function Windows(log: seq<Record>, latest: Checkpoint, keep: Filter, filtered: bool, window: nat,
                         position: int, held: seq<Record>, checkpoint: Checkpoint): Plan
    requires window >= 1
    decreases latest.activity - position + 1
  {
    if position > latest.activity then
      Plan(if checkpoint.activity < latest.activity then [Txn([], latest)] else [], None)
    else
      var last := WindowEnd(position, window, latest);
      var rows := held + Select(log, position, last, keep);
      match WindowStep(rows, checkpoint.atomic, filtered, last + 1 <= latest.activity)
      case Refuse(error) => Plan([], Some(error))
      case Wait(held') => Windows(log, latest, keep, filtered, window, last + 1, held', checkpoint)
      case Apply(ready, held') =>
        if |ready| == 0 then Plan([], None)
        else
          var rest := Windows(log, latest, keep, filtered, window, last + 1, held', LastOf(ready));
          Plan([Txn(ready, LastOf(ready))] + rest.txns, rest.error)
  }

  ghost function RunPlan(log: seq<Record>, latest: Checkpoint, keep: Filter, filtered: bool, window: nat,
                         checkpoint: Checkpoint): Plan
    requires window >= 1
  {
    if latest.activity < checkpoint.activity || latest.atomic < checkpoint.atomic then
      Plan([], Some(SourceReset))
    else
      Windows(log, latest, keep, filtered, window, checkpoint.activity + 1, [], checkpoint)
  }

  function Flatten(txns: seq<Txn>): seq<Record> {
    if |txns| == 0 then [] else txns[0].rows + Flatten(txns[1..])
  }

  function End(checkpoint: Checkpoint, txns: seq<Txn>): Checkpoint {
    if |txns| == 0 then checkpoint else txns[|txns| - 1].checkpoint
  }

  // ----- The run itself -----

  /** A stored extract, as its map's table holds it: its checkpoint, and the
      patches committed to it. The process that patches it may be stopped: after
      patchesLeft more transactions, the next one raises and is rolled back. */
  class Extract {
    var checkpoint: Checkpoint
    var committed: seq<Txn>
    var patchesLeft: nat

    constructor (checkpoint: Checkpoint, patchesLeft: nat)
      ensures this.checkpoint == checkpoint && committed == [] && this.patchesLeft == patchesLeft
    {
      this.checkpoint := checkpoint;
      committed := [];
      this.patchesLeft := patchesLeft;
    }
  }

  class RemoteExtractUpdate {
    const extract: Extract
    const keep: Filter
    const filtered: bool
    const window: nat

    constructor (extract: Extract, keep: Filter, filtered: bool, window: nat)
      requires window >= 1
      ensures this.extract == extract && this.keep == keep && this.filtered == filtered && this.window == window
    {
      this.extract := extract;
      this.keep := keep;
      this.filtered := filtered;
      this.window := window;
    }

    /** One transaction: the patch and the checkpoint are committed together, or neither is. */
    method Patching(rows: seq<Record>, checkpoint: Checkpoint) returns (ok: bool)
      modifies extract
      ensures ok == (old(extract.patchesLeft) > 0)
      ensures ok ==>
        && extract.committed == old(extract.committed) + [Txn(rows, checkpoint)]
        && extract.checkpoint == checkpoint
        && extract.patchesLeft == old(extract.patchesLeft) - 1
      ensures !ok ==> unchanged(extract)
    {
      if extract.patchesLeft == 0 {
        return false;
      }
      extract.committed := extract.committed + [Txn(rows, checkpoint)];
      extract.checkpoint := checkpoint;
      extract.patchesLeft := extract.patchesLeft - 1;
      return true;
    }

    /** Commits the rows with the checkpoint, unless a row lacks its related parents or the extract
        stops. */
    method ApplyRows(rows: seq<Record>, checkpoint: Checkpoint) returns (r: Result<(), UpdateError>)
      modifies extract
      ensures FirstWithoutParents(rows).Some? ==> r == Failure(NoRelatedParents(FirstWithoutParents(rows).value))
      ensures FirstWithoutParents(rows).None? ==>
        r == (if old(extract.patchesLeft) > 0 then Success(()) else Failure(Stopped))
      ensures r.Success? ==>
        && extract.committed == old(extract.committed) + [Txn(rows, checkpoint)]
        && extract.checkpoint == checkpoint
        && extract.patchesLeft == old(extract.patchesLeft) - 1
      ensures r.Failure? ==> unchanged(extract)
    {
      for i := 0 to |rows|
        invariant FirstWithoutParents(rows) == FirstWithoutParents(rows[i..])
        invariant unchanged(extract)
      {
        if !rows[i].hasRelatedParents {
          return Failure(NoRelatedParents(rows[i].id));
        }
        assert rows[i..][1..] == rows[i + 1..];
      }
      var ok := Patching(rows, checkpoint);
      r := if ok then Success(()) else Failure(Stopped);
    }

    /** The body of the loop: check a window's rows, hold back its final edit, apply the rest. */
    method RunWindow(rows: seq<Record>, checkpoint: Checkpoint, more: bool)
        returns (r: Result<(), UpdateError>, held: seq<Record>, checkpoint': Checkpoint, applied: nat)
      modifies extract
      ensures
        match WindowStep(rows, checkpoint.atomic, filtered, more)
        case Refuse(error) => r == Failure(error) && unchanged(extract)
        case Wait(h) => r.Success? && held == h && checkpoint' == checkpoint && applied == 0 && unchanged(extract)
        case Apply(ready, h) =>
          if old(extract.patchesLeft) == 0 then r == Failure(Stopped) && |ready| > 0 && unchanged(extract)
          else
            && r.Success? && held == h && |ready| > 0 && checkpoint' == LastOf(ready) && applied == |ready|
            && extract.committed == old(extract.committed) + [Txn(ready, LastOf(ready))]
            && extract.checkpoint == LastOf(ready)
            && extract.patchesLeft == old(extract.patchesLeft) - 1
    {
      hide WholeGroups, FirstUngrouped, SameEdit, FirstWithoutParents;
      held, checkpoint', applied := [], checkpoint, 0;
      var error := CheckGroups(rows, checkpoint.atomic, filtered);
      if error.Some? {
        r := Failure(error.value);
        return;
      }
      held := HeldBack(rows, more);
      var ready := rows[..|rows| - |held|];
      if |ready| == 0 {
        r := Success(());
        return;
      }
      checkpoint' := LastOf(ready);
      applied := |ready|;
      r := ApplyRows(ready, checkpoint');
    }

    /** Update from the stored checkpoint: commit the planned transactions one by
        one, as many as the process lives for. */
    method Run(log: seq<Record>, latest: Checkpoint) returns (r: Result<nat, UpdateError>)
      requires Sorted(log) && window >= 1
      modifies extract
      ensures
        var plan := RunPlan(log, latest, keep, filtered, window, old(extract.checkpoint));
        Ran(plan, old(extract.checkpoint), old(extract.committed), old(extract.patchesLeft),
            extract.checkpoint, extract.committed, extract.patchesLeft, r)
    {
      hide WindowStep, Remains, Committed, Ran, Flatten, LastOf, End, Select;
      var checkpoint := extract.checkpoint;
      ghost var plan := RunPlan(log, latest, keep, filtered, window, checkpoint);
      ghost var done: seq<Txn> := [];
      Start(plan, checkpoint, extract.committed, extract.patchesLeft);
      if latest.activity < checkpoint.activity || latest.atomic < checkpoint.atomic {
        RanSo(plan, done, plan, checkpoint, extract.committed, extract.patchesLeft,
              checkpoint, extract.committed, extract.patchesLeft, Failure(SourceReset));
        return Failure(SourceReset);
      }
      var applied := 0;
      var position := checkpoint.activity + 1;
      var held: seq<Record> := [];
      while position <= latest.activity
        invariant Remains(plan, done, Windows(log, latest, keep, filtered, window, position, held, checkpoint))
        invariant Committed(old(extract.checkpoint), old(extract.committed), old(extract.patchesLeft), done,
                            extract.checkpoint, extract.committed, extract.patchesLeft)
        invariant extract.checkpoint == checkpoint
        invariant applied == |Flatten(done)|
        decreases latest.activity - position + 1
      {
        var last := WindowEnd(position, window, latest);
        var found := ActivityPages.LocalActivities(log, position, last, keep);
        var rows := held + found;
        ghost var now := Windows(log, latest, keep, filtered, window, position, held, checkpoint);
        ghost var step := WindowStep(rows, checkpoint.atomic, filtered, last + 1 <= latest.activity);
        ghost var soFar := (extract.checkpoint, extract.committed, extract.patchesLeft);
        position := last + 1;
        var outcome, held', checkpoint', count := RunWindow(rows, checkpoint, position <= latest.activity);
        if outcome.Failure? {
          RanSo(plan, done, now, old(extract.checkpoint), old(extract.committed), old(extract.patchesLeft),
                extract.checkpoint, extract.committed, extract.patchesLeft, Failure(outcome.error));
          return Failure(outcome.error);
        }
        held, checkpoint, applied := held', checkpoint', applied + count;
        if step.Apply? {
          FlattenAppend(done, Txn(step.rows, checkpoint));
          RemainsNext(plan, done, now, Txn(step.rows, checkpoint),
                      Windows(log, latest, keep, filtered, window, position, held, checkpoint));
          CommittedNext(old(extract.checkpoint), old(extract.committed), old(extract.patchesLeft), done,
                        soFar.0, soFar.1, soFar.2, Txn(step.rows, checkpoint));
          done := done + [Txn(step.rows, checkpoint)];
        }
      }
      r := Success(applied);
      ghost var rest := Windows(log, latest, keep, filtered, window, position, held, checkpoint);
      ghost var soFar := (extract.checkpoint, extract.committed, extract.patchesLeft);
      if checkpoint.activity < latest.activity {
        var ok := Patching([], latest);
        if !ok {
          r := Failure(Stopped);
        } else {
          FlattenAppend(done, Txn([], latest));
          RemainsNext(plan, done, rest, Txn([], latest), Plan([], None));
          CommittedNext(old(extract.checkpoint), old(extract.committed), old(extract.patchesLeft), done,
                        soFar.0, soFar.1, soFar.2, Txn([], latest));
          done, rest := done + [Txn([], latest)], Plan([], None);
        }
      }
      RanSo(plan, done, rest, old(extract.checkpoint), old(extract.committed), old(extract.patchesLeft),
            extract.checkpoint, extract.committed, extract.patchesLeft, r);
    }
  }

  /** Of a plan, done has been committed and rest is still to come. */
  ghost predicate Remains(plan: Plan, done: seq<Txn>, rest: Plan) {
    plan.txns == done + rest.txns && plan.error == rest.error
  }

  lemma RemainsNext(plan: Plan, done: seq<Txn>, now: Plan, t: Txn, rest: Plan)
    requires Remains(plan, done, now)
    requires now.txns == [t] + rest.txns && now.error == rest.error
    ensures Remains(plan, done + [t], rest)
  {
    assert done + ([t] + rest.txns) == (done + [t]) + rest.txns;
  }

  /** The extract after some transactions. */
  ghost predicate Committed(checkpoint: Checkpoint, committed: seq<Txn>, patches: nat, done: seq<Txn>,
                            checkpoint': Checkpoint, committed': seq<Txn>, patches': nat)
  {
    && committed' == committed + done
    && checkpoint' == End(checkpoint, done)
    && |done| <= patches && patches' == patches - |done|
  }

  lemma Start(plan: Plan, checkpoint: Checkpoint, committed: seq<Txn>, patches: nat)
    ensures Remains(plan, [], plan)
    ensures Committed(checkpoint, committed, patches, [], checkpoint, committed, patches)
    ensures Flatten([]) == []
  {
    assert [] + plan.txns == plan.txns;
  }

  lemma CommittedNext(checkpoint: Checkpoint, committed: seq<Txn>, patches: nat, done: seq<Txn>,
                      checkpoint': Checkpoint, committed': seq<Txn>, patches': nat, t: Txn)
    requires Committed(checkpoint, committed, patches, done, checkpoint', committed', patches')
    requires patches' > 0
    ensures Committed(checkpoint, committed, patches, done + [t], t.checkpoint, committed' + [t], patches' - 1)
  {
    assert (committed + done) + [t] == committed + (done + [t]);
  }

  lemma RanSo(plan: Plan, done: seq<Txn>, rest: Plan,
              checkpoint: Checkpoint, committed: seq<Txn>, patches: nat,
              checkpoint': Checkpoint, committed': seq<Txn>, patches': nat, r: Result<nat, UpdateError>)
    requires Remains(plan, done, rest)
    requires Committed(checkpoint, committed, patches, done, checkpoint', committed', patches')
    requires if |rest.txns| > 0 then patches' == 0 && r == Failure(Stopped)
             else if rest.error.Some? then r == Failure(rest.error.value)
             else r == Success(|Flatten(done)|)
    ensures Ran(plan, checkpoint, committed, patches, checkpoint', committed', patches', r)
  {
    assert plan.txns[..|done|] == done;
    if |rest.txns| == 0 {
      assert plan.txns == done;
    }
  }

  /** What a run does to an extract, given the transactions it plans. */
  ghost predicate Ran(plan: Plan, checkpoint: Checkpoint, committed: seq<Txn>, patches: nat,
                      checkpoint': Checkpoint, committed': seq<Txn>, patches': nat,
                      r: Result<nat, UpdateError>)
  {
    var n := if patches < |plan.txns| then patches else |plan.txns|;
    && committed' == committed + plan.txns[..n]
    && checkpoint' == End(checkpoint, plan.txns[..n])
    && patches' == patches - n
    && r == (if n < |plan.txns| then Failure(Stopped)
             else if plan.error.Some? then Failure(plan.error.value)
             else Success(|Flatten(plan.txns)|))
  }

  lemma {:induction false} FlattenAppend(txns: seq<Txn>, t: Txn)
    ensures Flatten(txns + [t]) == Flatten(txns) + t.rows
  {
    if |txns| == 0 {
      assert (txns + [t])[1..] == [];
      assert t.rows + [] == t.rows;
    } else {
      FlattenAppend(txns[1..], t);
      assert (txns + [t])[1..] == txns[1..] + [t];
    }
  }
}
