/** The parts of a query that are worked out before the map is searched: the IDs
    that its sets, IDs and links allow, and the positions that it measures from. */
module QueryParts {
  import opened Wrappers
  import opened Osm
  import opened Sets
  import opened Ql
  import opened OverpassMeaning
  import opened MapSource

  // ----- Candidates by ID, set or link -----

  predicate IsIdentity(f: Filter) {
    f.IdQuery? || f.ItemFilter? || f.RecurseFilter?
  }

  /** The IDs that one identity filter leaves of a kind. */
  function Candidate(m: MapData, env: Env, f: Filter, kind: Kind): set<int>
    requires IsIdentity(f)
  {
    match f
    case IdQuery(ids) => set id | id in ids
    case ItemFilter(s) => GetSet(env, s).Of(kind)
    case RecurseFilter(link, s, role) => Linked(m, GetSet(env, s), link, role, kind)
  }

  lemma CandidateMeets(m: MapData, env: Env, f: Filter, kind: Kind, id: int)
    requires IsIdentity(f)
    ensures MeetsIdentity(m, env, f, kind, id) <==> id in Candidate(m, env, f, kind)
  {
  }

  /** The IDs that all of a query's filters by ID, set or link allow, if it has any. */
  ghost predicate AllowedBy(m: MapData, env: Env, filters: seq<Filter>, kind: Kind, ids: Option<set<int>>) {
    && (ids.Some? <==> exists f :: f in filters && IsIdentity(f))
    && (ids.Some? ==> forall id :: id in ids.value <==> forall f :: f in filters ==> MeetsIdentity(m, env, f, kind, id))
  }

  /** Some candidates are those of exactly the filters before one of a pass. */
  ghost predicate Gathered(m: MapData, env: Env, kind: Kind, fs: set<Filter>, candidates: seq<set<int>>) {
    && (forall f :: f in fs ==> IsIdentity(f))
    && (forall f :: f in fs && IsIdentity(f) ==> Candidate(m, env, f, kind) in candidates)
    && (forall c :: c in candidates ==> IsOf(m, env, kind, fs, c))
  }

  ghost predicate IsOf(m: MapData, env: Env, kind: Kind, fs: set<Filter>, c: set<int>) {
    exists f :: f in fs && IsIdentity(f) && Candidate(m, env, f, kind) == c
  }

  lemma GatheredOneMore(m: MapData, env: Env, kind: Kind, fs: set<Filter>, candidates: seq<set<int>>, f: Filter)
    requires Gathered(m, env, kind, fs, candidates) && IsIdentity(f)
    ensures Gathered(m, env, kind, fs + {f}, candidates + [Candidate(m, env, f, kind)])
  {
    hide Candidate;
    var more := candidates + [Candidate(m, env, f, kind)];
    forall c | c in more
      ensures IsOf(m, env, kind, fs + {f}, c)
    {
      if c in candidates {
        assert IsOf(m, env, kind, fs, c);
      } else {
        assert f in fs + {f};
      }
    }
  }

  /** The identity filters of a query, up to a place in one pass over them. */
  ghost function Seen(filters: seq<Filter>, pass: nat, i: nat): set<Filter>
    requires i <= |filters|
  {
    set j | 0 <= j < |filters| && IsIdentity(filters[j]) && (Pass(filters[j]) < pass || (Pass(filters[j]) == pass && j < i))
      :: filters[j]
  }

  /** IDs are looked at first, then sets, then links. */
  function Pass(f: Filter): nat {
    match f
    case IdQuery(_) => 0
    case ItemFilter(_) => 1
    case _ => 2
  }

  lemma SeenNext(filters: seq<Filter>, pass: nat, i: nat)
    requires i < |filters|
    ensures Seen(filters, pass, i + 1) ==
      if IsIdentity(filters[i]) && Pass(filters[i]) == pass then Seen(filters, pass, i) + {filters[i]} else Seen(filters, pass, i)
  {
  }

  lemma SeenPass(filters: seq<Filter>, pass: nat)
    ensures Seen(filters, pass, |filters|) == Seen(filters, pass + 1, 0)
  {
  }

  lemma SeenAll(filters: seq<Filter>, f: Filter)
    ensures f in Seen(filters, 3, 0) <==> f in filters && IsIdentity(f)
    ensures Seen(filters, 0, 0) == {}
  {
  }

  lemma LinkedAreFew(m: MapData, limits: Limits, s: Ids, link: Link, role: Option<string>, kind: Kind)
    requires Roomy(m, limits)
    ensures |Linked(m, s, link, role, kind)| <= limits.maxElements
  {
    var ids := Linked(m, s, link, role, kind);
    var known := Known(m).Of(kind);
    assert ids <= known by {
      forall id | id in ids
        ensures id in known
      {
        LinkedIsKnown(m, s, link, role, kind, id);
      }
    }
    SubsetSize(ids, known);
  }

  lemma LinkedIsKnown(m: MapData, s: Ids, link: Link, role: Option<string>, kind: Kind, id: int)
    requires id in Linked(m, s, link, role, kind)
    ensures id in Known(m).Of(kind)
  {
    match link
    case R =>
      assert MembersOf(m, s.relation, kind, role) <= MembersOf(m, m.relation.Keys, kind, None);
    case _ =>
  }

  /** The set Linked, or an error if it is far larger than a query may select. */
  method LinkedIds(source: Source, s: Ids, link: Link, role: Option<string>, kind: Kind)
      returns (r: Result<set<int>, QueryError>)
    ensures r.Success? ==> r.value == Linked(source.w.data, s, link, role, kind)
    ensures r.Failure? ==> r.error == TooManyElements && !Roomy(source.w.data, source.limits)
  {
    hide Roomy, MembersOf, RefsOf, WaysOfNodes, HoldsAny;
    var m := source.w.data;
    var ids: set<int> := {};
    if link.W? {
      if kind.Node? {
        ids := RefsOf(m, s.way);
      }
    } else if link.R? {
      ids := MembersOf(m, s.relation, kind, role);
    } else {
      var memberKind := LinkKind(link);
      var memberIds := s.Of(memberKind);
      if kind.Way? && link.Bn? {
        ids := WaysOfNodes(m, memberIds);
      } else if kind.Relation? {
        ids := set r | r in m.relation && HoldsAny(m.relation[r], memberKind, memberIds, role);
      }
    }
    assert ids == Linked(m, s, link, role, kind);
    if |ids| > 10 * source.limits.maxElements {
      if Roomy(m, source.limits) {
        LinkedAreFew(m, source.limits, s, link, role, kind);
        assert false;
      }
      return Failure(TooManyElements);
    }
    return Success(ids);
  }

  /** The candidates of one filter, if it is looked at in a pass. */
  method OneCandidate(source: Source, env: Env, f: Filter, kind: Kind) returns (r: Result<set<int>, QueryError>)
    requires IsIdentity(f)
    ensures r.Success? ==> r.value == Candidate(source.w.data, env, f, kind)
    ensures r.Failure? ==> r.error == TooManyElements && !Roomy(source.w.data, source.limits)
  {
    hide Linked, Roomy;
    match f
    case IdQuery(ids) =>
      return Success(set id | id in ids);
    case ItemFilter(s) =>
      return Success(GetSet(env, s).Of(kind));
    case RecurseFilter(link, s, role) =>
      r := LinkedIds(source, GetSet(env, s), link, role, kind);
  }

  /** The candidates of all filters by ID, then by set, then by link. */
  method Candidates(source: Source, env: Env, filters: seq<Filter>, kind: Kind) returns (r: Result<seq<set<int>>, QueryError>)
    ensures r.Success? ==> Gathered(source.w.data, env, kind, Seen(filters, 3, 0), r.value)
    ensures r.Failure? ==> r.error == TooManyElements && !Roomy(source.w.data, source.limits)
  {
    hide Candidate, Seen, Roomy, Gathered;
    var candidates: seq<set<int>> := [];
    NothingGathered(source.w.data, env, kind, filters);
    for pass := 0 to 3
      invariant Gathered(source.w.data, env, kind, Seen(filters, pass, 0), candidates)
    {
      for i := 0 to |filters|
        invariant Gathered(source.w.data, env, kind, Seen(filters, pass, i), candidates)
      {
        SeenNext(filters, pass, i);
        if IsIdentity(filters[i]) && Pass(filters[i]) == pass {
          var c :- OneCandidate(source, env, filters[i], kind);
          GatheredOneMore(source.w.data, env, kind, Seen(filters, pass, i), candidates, filters[i]);
          candidates := candidates + [c];
        }
      }
      SeenPass(filters, pass);
    }
    return Success(candidates);
  }

  lemma NothingGathered(m: MapData, env: Env, kind: Kind, filters: seq<Filter>)
    ensures Gathered(m, env, kind, Seen(filters, 0, 0), [])
  {
  }

  /** What is in the first of some sets, and in all of them. */
  ghost predicate InAll(candidates: seq<set<int>>, n: nat, id: int)
    requires n <= |candidates|
  {
    forall i :: 0 <= i < n ==> id in candidates[i]
  }

  /** The intersection of the candidates, stopping when nothing is left. */
  method Intersection(candidates: seq<set<int>>) returns (ids: Option<set<int>>)
    ensures ids.Some? <==> |candidates| > 0
    ensures ids.Some? ==> forall id :: id in ids.value <==> InAll(candidates, |candidates|, id)
  {
    ids := None;
    for i := 0 to |candidates|
      invariant ids.Some? <==> i > 0
      invariant ids.Some? ==> forall id :: id in ids.value <==> InAll(candidates, i, id)
    {
      ids := Some(if ids.None? then candidates[i] else ids.value * candidates[i]);
      if |ids.value| == 0 {
        forall id
          ensures !InAll(candidates, |candidates|, id)
        {
          assert id !in ids.value;
        }
        break;
      }
    }
  }

  lemma InAllIsAllowed(m: MapData, env: Env, filters: seq<Filter>, kind: Kind, candidates: seq<set<int>>, id: int)
    requires Gathered(m, env, kind, Seen(filters, 3, 0), candidates)
    ensures InAll(candidates, |candidates|, id) <==> forall f :: f in filters ==> MeetsIdentity(m, env, f, kind, id)
  {
    hide Candidate, MeetsIdentity, Seen;
    if InAll(candidates, |candidates|, id) {
      forall f | f in filters
        ensures MeetsIdentity(m, env, f, kind, id)
      {
        if IsIdentity(f) {
          SeenAll(filters, f);
          assert Candidate(m, env, f, kind) in candidates;
          CandidateMeets(m, env, f, kind, id);
        } else {
          NoIdentityMeets(m, env, f, kind, id);
        }
      }
    }
    if forall f :: f in filters ==> MeetsIdentity(m, env, f, kind, id) {
      forall i | 0 <= i < |candidates|
        ensures id in candidates[i]
      {
        assert IsOf(m, env, kind, Seen(filters, 3, 0), candidates[i]);
        var f :| f in Seen(filters, 3, 0) && IsIdentity(f) && Candidate(m, env, f, kind) == candidates[i];
        SeenAll(filters, f);
        CandidateMeets(m, env, f, kind, id);
      }
    }
  }

  lemma NoIdentityMeets(m: MapData, env: Env, f: Filter, kind: Kind, id: int)
    requires !IsIdentity(f)
    ensures MeetsIdentity(m, env, f, kind, id)
  {
  }

  /** The IDs that a query's filters by ID, set and link allow, or None without any. */
  method CandidateIds(source: Source, env: Env, filters: seq<Filter>, kind: Kind)
      returns (r: Result<Option<set<int>>, QueryError>)
    ensures r.Success? ==> AllowedBy(source.w.data, env, filters, kind, r.value)
    ensures r.Failure? ==> r.error == TooManyElements && !Roomy(source.w.data, source.limits)
  {
    hide Candidate, Seen, Roomy, InAll, MeetsIdentity;
    var candidates :- Candidates(source, env, filters, kind);
    var ids := Intersection(candidates);
    forall id
      ensures InAll(candidates, |candidates|, id) <==>
        forall f :: f in filters ==> MeetsIdentity(source.w.data, env, f, kind, id)
    {
      InAllIsAllowed(source.w.data, env, filters, kind, candidates, id);
    }
    AnyCandidates(source.w.data, env, kind, filters, candidates);
    return Success(ids);
  }

  lemma AnyCandidates(m: MapData, env: Env, kind: Kind, filters: seq<Filter>, candidates: seq<set<int>>)
    requires Gathered(m, env, kind, Seen(filters, 3, 0), candidates)
    ensures |candidates| > 0 <==> exists f :: f in filters && IsIdentity(f)
  {
    if |candidates| > 0 {
      assert candidates[0] in candidates;
      assert IsOf(m, env, kind, Seen(filters, 3, 0), candidates[0]);
      var f :| f in Seen(filters, 3, 0) && IsIdentity(f);
      SeenAll(filters, f);
    }
    if f :| f in filters && IsIdentity(f) {
      SeenAll(filters, f);
      assert Candidate(m, env, f, kind) in candidates;
    }
  }
}
