/** A range of the log as messages: each holds so many of its records, and starts just after the one
    before. */
module RecordMessages {
  import opened Wrappers
  import opened EditLog

  /** A message: the records it holds, and the range of IDs that it vouches for. */
  datatype Message = Message(first: int, last: int, rows: seq<Record>)

  /** A page of a range: its first limit records (0 for no limit), and the ID up to
      which the range holds no others. There is no page without records. */
  function Records(log: seq<Record>, first: int, last: int, keep: Filter, limit: nat): (r: Option<(seq<Record>, int)>) {
    var all := Select(log, first, last, keep);
    var rows := if limit == 0 then all else Take(all, limit);
    if |rows| == 0 then None
    else Some((rows, if limit > 0 && |rows| == limit then rows[|rows| - 1].id else last))
  }

  /** Some records fill a message, which then covers the IDs up to the last of
      them, or are all that there are. */
  predicate Covers(rows: seq<Record>, covered: int, last: int, limit: nat) {
    && 0 < |rows| && (limit > 0 ==> |rows| <= limit)
    && covered == if limit > 0 && |rows| == limit then rows[|rows| - 1].id else last
  }

  lemma RecordsForward(log: seq<Record>, first: int, last: int, keep: Filter, limit: nat)
    requires Sorted(log) && first <= last
    ensures
      var found := Records(log, first, last, keep, limit);
      && (found.None? ==> Select(log, first, last, keep) == [])
      && (found.Some? ==>
            var (rows, covered) := found.value;
            && Covers(rows, covered, last, limit)
            && first <= covered <= last
            && rows == Select(log, first, covered, keep)
            && rows + Select(log, covered + 1, last, keep) == Select(log, first, last, keep))
  {
    var all := Select(log, first, last, keep);
    hide Select;
    if |all| > 0 {
      if limit > 0 && |all| >= limit {
        assert Take(all, limit) == all[..limit];
        SelectRest(log, first, last, keep, limit);
        assert all == all[..limit] + all[limit..];
      } else {
        SelectEmptyRange(log, last + 1, last, keep);
        assert all + [] == all;
      }
    }
  }

  function Content(messages: seq<Message>): seq<Record> {
    if |messages| == 0 then [] else Content(messages[..|messages| - 1]) + messages[|messages| - 1].rows
  }

  lemma {:induction false} ContentBoth(a: seq<Message>, b: seq<Message>)
    ensures Content(a + b) == Content(a) + Content(b)
  {
    if |b| == 0 {
      assert a + b == a;
    } else {
      var init := b[..|b| - 1];
      ContentBoth(a, init);
      assert (a + b)[..|a + b| - 1] == a + init;
    }
  }

  /** Where the message after some others starts. */
  function NextFirst(messages: seq<Message>, first: int): int {
    if |messages| == 0 then first else messages[|messages| - 1].last + 1
  }

  /** One message goes on where the ones before it ended, and holds as much as it may. */
  ghost predicate Follows(messages: seq<Message>, i: nat, first: int, last: int, limit: nat)
    requires i < |messages|
  {
    var m := messages[i];
    && m.first == NextFirst(messages[..i], first)
    && m.first <= m.last <= last
    && Covers(m.rows, m.last, last, limit)
    && forall r :: r in m.rows ==> m.first <= r.id <= m.last
  }

  ghost predicate FollowOn(messages: seq<Message>, first: int, last: int, limit: nat) {
    forall i :: 0 <= i < |messages| ==> Follows(messages, i, first, last, limit)
  }

  lemma FollowOnMore(messages: seq<Message>, m: Message, first: int, last: int, limit: nat)
    requires FollowOn(messages, first, last, limit)
    requires Follows(messages + [m], |messages|, first, last, limit)
    ensures FollowOn(messages + [m], first, last, limit)
  {
    var more := messages + [m];
    forall i | 0 <= i < |more|
      ensures Follows(more, i, first, last, limit)
    {
      if i < |messages| {
        assert Follows(messages, i, first, last, limit);
        assert more[..i] == messages[..i];
      }
    }
  }

  /** What is sent for a range: exactly its records, in order, once each, in
      messages whose ranges follow on. */
  ghost predicate IsBatch(messages: seq<Message>, log: seq<Record>, first: int, last: int, keep: Filter, limit: nat) {
    && Content(messages) == Select(log, first, last, keep)
    && FollowOn(messages, first, last, limit)
  }

  /** The range as messages: they hold exactly its records, each in one, and follow on. */
  method RecordsMessages(log: seq<Record>, first: int, last: int, keep: Filter, limit: nat) returns (messages: seq<Message>)
    requires Sorted(log)
    ensures IsBatch(messages, log, first, last, keep, limit)
  {
    hide Select, Records, Follows, Covers;
    messages := [];
    var from := first;
    while from <= last
      invariant from == NextFirst(messages, first)
      invariant Content(messages) + Select(log, from, last, keep) == Select(log, first, last, keep)
      invariant FollowOn(messages, first, last, limit)
      decreases last - from
    {
      var found := Records(log, from, last, keep, limit);
      RecordsForward(log, from, last, keep, limit);
      if found.None? {
        break;
      }
      var (rows, covered) := found.value;
      MessageFollows(log, messages, from, covered, rows, first, last, keep, limit);
      messages := messages + [Message(from, covered, rows)];
      from := covered + 1;
    }
    SelectNone(log, from, last, keep);
  }

  lemma MessageFollows(log: seq<Record>, messages: seq<Message>, from: int, covered: int, rows: seq<Record>,
                       first: int, last: int, keep: Filter, limit: nat)
    requires Sorted(log) && FollowOn(messages, first, last, limit)
    requires from == NextFirst(messages, first) && from <= covered <= last
    requires rows == Select(log, from, covered, keep) && Covers(rows, covered, last, limit)
    requires rows + Select(log, covered + 1, last, keep) == Select(log, from, last, keep)
    requires Content(messages) + Select(log, from, last, keep) == Select(log, first, last, keep)
    ensures
      var more := messages + [Message(from, covered, rows)];
      && FollowOn(more, first, last, limit)
      && NextFirst(more, first) == covered + 1
      && Content(more) + Select(log, covered + 1, last, keep) == Select(log, first, last, keep)
  {
    hide Select, FollowOn, Covers;
    var m := Message(from, covered, rows);
    SelectRange(log, from, covered, keep);
    assert (messages + [m])[..|messages|] == messages;
    FollowOnMore(messages, m, first, last, limit);
    Associate(Content(messages), rows, Select(log, covered + 1, last, keep));
  }

  lemma Associate(a: seq<Record>, b: seq<Record>, c: seq<Record>)
    ensures (a + b) + c == a + (b + c)
  {
  }

  lemma SelectNone(log: seq<Record>, first: int, last: int, keep: Filter)
    ensures first > last ==> Select(log, first, last, keep) == []
  {
    if first > last {
      SelectEmptyRange(log, first, last, keep);
    }
  }
}
