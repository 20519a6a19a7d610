/** Reading a range of edit activity a page at a time: the server's limit + 1
    query, and the two loops that follow its answers. */
module ActivityPages {
  import opened Wrappers
  import opened EditLog

  /** What edit_activities answers: the records and, if they were cut short,
      whether and where to go on from. */
  datatype Answer = Answer(rows: seq<Record>, truncated: bool, nextId: Option<int>)

  datatype ReadError = CutShort

  const LOCAL_ROWS_PER_QUERY: nat := 100

  /** What a query of the log gives: the range's records, cut off at the limit. */
  function QueryByIds(log: seq<Record>, first: int, last: int, keep: Filter, limit: nat): seq<Record> {
    Take(Select(log, first, last, keep), limit)
  }

  /** A page of at most limit records, and whether the range holds a record beyond the page. */
  function Serve(log: seq<Record>, first: int, last: int, keep: Filter, limit: nat): Answer
    requires limit >= 1
  {
    var results := QueryByIds(log, first, last, keep, limit + 1);
    var sent := Take(results, limit);
    if |results| > limit then
      Answer(sent, true, Some(sent[limit - 1].id + 1))
    else
      Answer(sent, false, None)
  }

  /** RemoteServer.activities: follow whatever a server says. From an honest
      server with any page size, this is the one-shot query; and only an answer
      that does not move forward is refused. */
  method RemoteActivities(serve: (int, int) -> Answer, first: int, last: int,
                          ghost log: seq<Record>, ghost keep: Filter, ghost limit: nat)
      returns (r: Result<seq<Record>, ReadError>)
    requires Sorted(log) && limit >= 1
    ensures Honest(serve, first, last, log, keep, limit) ==> r == Success(Select(log, first, last, keep))
    ensures r.Failure? ==>
      exists f :: first <= f <= last && serve(f, last).truncated && serve(f, last).nextId.GetOr(0) <= f
  {
    var firstId := first;
    var rows := [];
    ghost var honest := Honest(serve, first, last, log, keep, limit);
    while firstId <= last
      invariant first <= firstId
      invariant honest ==> rows + Select(log, firstId, last, keep) == Select(log, first, last, keep)
      decreases last - firstId
    {
      var answer := serve(firstId, last);
      if honest {
        ServeStep(log, firstId, last, keep, limit);
        assert answer == Serve(log, firstId, last, keep, limit);
      }
      ghost var before := rows;
      rows := rows + answer.rows;
      if !answer.truncated {
        return Success(rows);
      }
      var following := answer.nextId.GetOr(0);
      if following <= firstId {
        return Failure(CutShort);
      }
      if honest {
        assert rows + Select(log, following, last, keep) == before + (answer.rows + Select(log, following, last, keep));
      }
      firstId := following;
    }
    SelectNothing(log, firstId, last, keep);
    assert rows + [] == rows;
    return Success(rows);
  }

  /** A server that answers from the log, with pages of one size. */
  ghost predicate Honest(serve: (int, int) -> Answer, first: int, last: int,
                         log: seq<Record>, keep: Filter, limit: nat)
    requires limit >= 1
  {
    forall f :: first <= f <= last ==> serve(f, last) == Serve(log, f, last, keep, limit)
  }

  /** LocalServer.activities: the same pages read straight from the table. */
  method LocalActivities(log: seq<Record>, first: int, last: int, keep: Filter) returns (rows: seq<Record>)
    requires Sorted(log)
    ensures rows == Select(log, first, last, keep)
  {
    var firstId := first;
    rows := [];
    while firstId <= last
      invariant first <= firstId
      invariant rows + Select(log, firstId, last, keep) == Select(log, first, last, keep)
      decreases last - firstId
    {
      var results := QueryByIds(log, firstId, last, keep, LOCAL_ROWS_PER_QUERY + 1);
      var activities := Take(results, LOCAL_ROWS_PER_QUERY);
      var more := |results| > LOCAL_ROWS_PER_QUERY;
      var following := if activities != [] then activities[|activities| - 1].id + 1 else last + 1;
      ServeStep(log, firstId, last, keep, LOCAL_ROWS_PER_QUERY);
      rows := rows + activities;
      if !more {
        return;
      }
      firstId := following;
    }
    SelectNothing(log, firstId, last, keep);
  }

  /** One page and what its answer says to ask next make up the whole range. */
  lemma ServeStep(log: seq<Record>, first: int, last: int, keep: Filter, limit: nat)
    requires Sorted(log) && limit >= 1
    ensures
      var a := Serve(log, first, last, keep, limit);
      var all := Select(log, first, last, keep);
      && |a.rows| <= limit
      && (!a.truncated ==> a.rows == all)
      && (a.truncated ==>
            && a.nextId.Some? && first < a.nextId.value <= last + 1
            && |a.rows| == limit && a.rows < all
            && a.rows + Select(log, a.nextId.value, last, keep) == all)
  {
    var all := Select(log, first, last, keep);
    if |all| > limit {
      assert Take(all, limit + 1)[..limit] == all[..limit];
      SelectRest(log, first, last, keep, limit);
    }
  }

  lemma SelectNothing(log: seq<Record>, first: int, last: int, keep: Filter)
    requires first > last
    ensures Select(log, first, last, keep) == []
  {
    SelectEmptyRange(log, first, last, keep);
  }
}
