/** The ID ranges of what a records subscription is sent: each message holds
    exactly the concerning records of its range, and no concerning record lies
    between two ranges. */
module NotifyRanges {
  import opened EditLog
  import opened RecordMessages
  import opened NotifySafety

  lemma InOrderBelow(sent: seq<Message>, first: int, last: int, last': int, limit: nat)
    requires InOrder(sent, first, last, limit) && last <= last'
    ensures InOrder(sent, first, last', limit)
  {
    forall i | 0 <= i < |sent|
      ensures Ahead(sent, i, first, last', limit)
    {
      assert Ahead(sent, i, first, last, limit);
    }
  }

  /** A message holds the records of its range, and nothing concerning was left
      out between it and the one before. */
  ghost predicate Exact(log: seq<Record>, keep: Filter, sent: seq<Message>, i: nat, first: int)
    requires i < |sent|
  {
    var m := sent[i];
    && m.rows == Select(log, m.first, m.last, keep)
    && Select(log, NextFirst(sent[..i], first), m.first - 1, keep) == []
  }

  ghost predicate AllExact(log: seq<Record>, keep: Filter, sent: seq<Message>, first: int) {
    forall i :: 0 <= i < |sent| ==> Exact(log, keep, sent, i, first)
  }

  /** A sequence in two ways in two, each at the same ID: the parts are the same. */
  lemma SameCut(low: seq<Record>, high: seq<Record>, a: seq<Record>, b: seq<Record>, mid: int)
    requires low + high == a + b
    requires forall r :: r in low + a ==> r.id <= mid
    requires forall r :: r in high + b ==> mid < r.id
    ensures low == a && high == b
  {
    var all := low + high;
    forall i | 0 <= i < |all|
      ensures i < |low| <==> all[i].id <= mid
      ensures i < |a| <==> all[i].id <= mid
    {
      assert if i < |low| then low[i] in low + a else high[i - |low|] in high + b;
      assert if i < |a| then (a + b)[i] == a[i] && a[i] in low + a else (a + b)[i] == b[i - |a|] && b[i - |a|] in high + b;
    }
    assert |low| < |all| ==> mid < all[|low|].id;
    assert |a| < |all| ==> mid < all[|a|].id;
    assert low == all[..|low|] && a == (a + b)[..|a|];
    assert high == all[|low|..] && b == (a + b)[|a|..];
  }

  /** A selection that is cut at an ID is the selections before and after it. */
  lemma SelectCut(log: seq<Record>, first: int, mid: int, last: int, keep: Filter, a: seq<Record>, b: seq<Record>)
    requires Sorted(log) && first <= mid + 1 && mid <= last && Select(log, first, last, keep) == a + b
    requires (forall r :: r in a ==> r.id <= mid) && (forall r :: r in b ==> mid < r.id)
    ensures a == Select(log, first, mid, keep) && b == Select(log, mid + 1, last, keep)
  {
    SelectSplit(log, first, mid, last, keep);
    SelectRange(log, first, mid, keep);
    SelectRange(log, mid + 1, last, keep);
    hide Select;
    SameCut(Select(log, first, mid, keep), Select(log, mid + 1, last, keep), a, b, mid);
  }

  lemma InOrderInit(sent: seq<Message>, first: int, last: int, limit: nat)
    requires |sent| > 0 && InOrder(sent, first, last, limit)
    ensures
      var init, m := sent[..|sent| - 1], sent[|sent| - 1];
      && NextFirst(init, first) <= m.first <= m.last <= last
      && (forall r :: r in m.rows ==> m.first <= r.id <= m.last)
      && InOrder(init, first, last, limit)
  {
    var init := sent[..|sent| - 1];
    assert Ahead(sent, |sent| - 1, first, last, limit);
    forall i | 0 <= i < |init|
      ensures Ahead(init, i, first, last, limit)
    {
      assert Ahead(sent, i, first, last, limit);
      assert init[..i] == sent[..i];
    }
  }

  /** Messages end where their last one ends, and so do their records. */
  lemma {:induction false} InOrderUpTo(sent: seq<Message>, first: int, last: int, limit: nat)
    requires InOrder(sent, first, last, limit)
    ensures first <= NextFirst(sent, first) && InOrder(sent, first, NextFirst(sent, first) - 1, limit)
    ensures forall r :: r in Content(sent) ==> r.id < NextFirst(sent, first)
  {
    if |sent| > 0 {
      var init, m := sent[..|sent| - 1], sent[|sent| - 1];
      InOrderInit(sent, first, last, limit);
      InOrderUpTo(init, first, last, limit);
      InOrderBelow(init, first, NextFirst(init, first) - 1, m.last, limit);
      forall i | 0 <= i < |sent|
        ensures Ahead(sent, i, first, m.last, limit)
      {
        assert Ahead(sent, i, first, last, limit);
        if i < |init| {
          assert Ahead(init, i, first, m.last, limit);
        }
      }
    }
  }

  /** A selection of some records and, after an ID, those of a range within the rest. */
  lemma SelectCuts(log: seq<Record>, first: int, next: int, from: int, upto: int, last: int, keep: Filter,
                   before: seq<Record>, rows: seq<Record>)
    requires Sorted(log) && first <= next <= from <= upto <= last && Select(log, first, last, keep) == before + rows
    requires (forall r :: r in before ==> r.id < next) && (forall r :: r in rows ==> from <= r.id <= upto)
    ensures Select(log, first, next - 1, keep) == before && Select(log, next, from - 1, keep) == []
    ensures Select(log, from, upto, keep) == rows && Select(log, upto + 1, last, keep) == []
  {
    hide Select, Sorted;
    SelectCut(log, first, next - 1, last, keep, before, rows);
    assert [] + rows == rows && rows + [] == rows;
    SelectCut(log, next, from - 1, last, keep, [], rows);
    SelectCut(log, from, upto, last, keep, rows, []);
  }

  /** One message more, after some that hold all before it. */
  lemma LastIsExact(log: seq<Record>, sent: seq<Message>, first: int, last: int, keep: Filter, limit: nat)
    requires Sorted(log) && |sent| > 0 && InOrder(sent, first, last, limit)
    requires Content(sent) == Select(log, first, last, keep)
    ensures Exact(log, keep, sent, |sent| - 1, first)
    ensures
      var init := sent[..|sent| - 1];
      && first <= NextFirst(init, first) && InOrder(init, first, NextFirst(init, first) - 1, limit)
      && Content(init) == Select(log, first, NextFirst(init, first) - 1, keep)
    ensures Select(log, NextFirst(sent, first), last, keep) == []
  {
    hide Select, InOrder, Sorted;
    var init, m := sent[..|sent| - 1], sent[|sent| - 1];
    InOrderInit(sent, first, last, limit);
    InOrderUpTo(init, first, last, limit);
    SelectCuts(log, first, NextFirst(init, first), m.first, m.last, last, keep, Content(init), m.rows);
  }

  /** In messages in order that hold a selection, each is exact, and nothing
      concerning comes after the last. */
  lemma {:induction false} RangesAreExact(log: seq<Record>, sent: seq<Message>, first: int, last: int, keep: Filter, limit: nat)
    requires Sorted(log) && InOrder(sent, first, last, limit) && Content(sent) == Select(log, first, last, keep)
    ensures AllExact(log, keep, sent, first)
    ensures Select(log, NextFirst(sent, first), last, keep) == []
  {
    hide Select, InOrder;
    if |sent| > 0 {
      LastIsExact(log, sent, first, last, keep, limit);
      var init := sent[..|sent| - 1];
      RangesAreExact(log, init, first, NextFirst(init, first) - 1, keep, limit);
      forall i | 0 <= i < |sent|
        ensures Exact(log, keep, sent, i, first)
      {
        if i < |init| {
          assert Exact(log, keep, init, i, first);
          assert init[..i] == sent[..i];
        }
      }
    }
  }
}
