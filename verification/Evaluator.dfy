/** The evaluator: it runs a script statement by statement, keeping named sets,
    what has been printed and how much. */
module Evaluator {
  import opened Wrappers
  import opened Osm
  import opened Sets
  import opened Ql
  import opened OverpassMeaning
  import opened OverpassRecursion
  import opened OverpassScript
  import opened MapSource
  import opened RegionSearch
  import opened Shapes
  import opened Querying
  import opened Recursing

  // ----- Why a statement may be refused -----

  function PrintedBy(o: Output): nat {
    match o
    case Counts(_, _) => 0
    case Listed(_, ordered, _) => |ordered|
  }

  function Printed(output: seq<Output>): nat {
    if |output| == 0 then 0 else Printed(output[..|output| - 1]) + PrintedBy(output[|output| - 1])
  }

  lemma {:induction false} PrintedBoth(a: seq<Output>, b: seq<Output>)
    ensures Printed(a + b) == Printed(a) + Printed(b)
  {
    if |b| == 0 {
      assert a + b == a;
    } else {
      var init := b[..|b| - 1];
      PrintedBoth(a, init);
      assert (a + b)[..|a + b| - 1] == a + init;
    }
  }

  /** Why a statement may be refused, when the output before it lists so many objects. */
  ghost predicate Refusable(w: World, globalBbox: Option<Bbox>, env: Env, st: Statement, limits: Limits, printed: nat,
                            error: QueryError)
    requires EnvInMap(w.data, env)
    decreases st
  {
    TooMany(w, limits, error) ||
    match st
    case Query(types, filters, _) => MayRefuse(w, env, globalBbox, types, filters, limits, error)
    case Item(_, _) => false
    case Union(statements, _) => AnyRefusable(w, globalBbox, env, statements, limits, printed, error)
    case Difference(first, second, _) =>
      var a := Run(w, globalBbox, env, first);
      Refusable(w, globalBbox, env, first, limits, printed, error)
      || Refusable(w, globalBbox, a.env, second, limits, printed + Printed(a.output), error)
    case Recurse(_, _, _) => false
    case Print(from, _, _, _, _) =>
      && error.TooManyElements?
      && printed + PrintedBy(PrintMeaning(w.data, GetSet(env, from), st)) > limits.maxElements
  }

  ghost predicate TooMany(w: World, limits: Limits, error: QueryError) {
    error.TooManyElements? && !Roomy(w.data, limits)
  }

  ghost predicate AnyRefusable(w: World, globalBbox: Option<Bbox>, env: Env, statements: seq<Statement>, limits: Limits,
                               printed: nat, error: QueryError)
    requires EnvInMap(w.data, env)
    decreases statements
  {
    |statements| > 0 &&
    (var before := RunAll(w, globalBbox, env, statements[..|statements| - 1]);
     AnyRefusable(w, globalBbox, env, statements[..|statements| - 1], limits, printed, error)
     || Refusable(w, globalBbox, before.env, statements[|statements| - 1], limits, printed + Printed(before.output), error))
  }

  lemma {:induction false} RefusableWithin(w: World, globalBbox: Option<Bbox>, env: Env, statements: seq<Statement>,
                                           limits: Limits, printed: nat, error: QueryError, i: nat)
    requires EnvInMap(w.data, env) && i < |statements|
    requires
      var before := RunAll(w, globalBbox, env, statements[..i]);
      Refusable(w, globalBbox, before.env, statements[i], limits, printed + Printed(before.output), error)
    ensures AnyRefusable(w, globalBbox, env, statements, limits, printed, error)
    decreases |statements|
  {
    hide Run, RunAll, Refusable, Printed;
    if i < |statements| - 1 {
      var init := statements[..|statements| - 1];
      assert init[..i] == statements[..i];
      RefusableWithin(w, globalBbox, env, init, limits, printed, error, i);
    }
  }

  lemma RefusableThen(w: World, globalBbox: Option<Bbox>, env: Env, statements: seq<Statement>, limits: Limits, printed: nat,
                      i: nat)
    requires EnvInMap(w.data, env) && i < |statements|
    ensures
      var before := RunAll(w, globalBbox, env, statements[..i]);
      forall error :: Refusable(w, globalBbox, before.env, statements[i], limits, printed + Printed(before.output), error) ==>
        AnyRefusable(w, globalBbox, env, statements, limits, printed, error)
  {
    hide Run, RunAll, Refusable, AnyRefusable, Printed;
    var before := RunAll(w, globalBbox, env, statements[..i]);
    forall error | Refusable(w, globalBbox, before.env, statements[i], limits, printed + Printed(before.output), error)
      ensures AnyRefusable(w, globalBbox, env, statements, limits, printed, error)
    {
      RefusableWithin(w, globalBbox, env, statements, limits, printed, error, i);
    }
  }

  /** The named sets a run leaves, after one more statement. */
  lemma RunOneMore(w: World, globalBbox: Option<Bbox>, env: Env, statements: seq<Statement>, i: nat)
    requires EnvInMap(w.data, env) && i < |statements|
    ensures
      var before := RunAll(w, globalBbox, env, statements[..i]);
      var last := Run(w, globalBbox, before.env, statements[i]);
      RunAll(w, globalBbox, env, statements[..i + 1]) ==
        Outcome(last.env, Join(before.result, last.result), before.output + last.output)
  {
    assert statements[..i + 1][..i] == statements[..i];
  }

  lemma RunNothing(w: World, globalBbox: Option<Bbox>, env: Env, statements: seq<Statement>)
    requires EnvInMap(w.data, env)
    ensures RunAll(w, globalBbox, env, statements[..0]) == Outcome(env, NONE, [])
  {
  }

  lemma NothingIsSmall()
    ensures Size(NONE) == 0
  {
  }

  lemma RunDifference(w: World, globalBbox: Option<Bbox>, env: Env, st: Statement)
    requires EnvInMap(w.data, env) && st.Difference?
    ensures
      var a := Run(w, globalBbox, env, st.first);
      var b := Run(w, globalBbox, a.env, st.second);
      var d := Minus(a.result, b.result);
      Run(w, globalBbox, env, st) == Outcome(Put(b.env, Some(st.into), d), d, a.output + b.output)
  {
  }

  lemma RunUnion(w: World, globalBbox: Option<Bbox>, env: Env, st: Statement)
    requires EnvInMap(w.data, env) && st.Union?
    ensures
      var u := RunAll(w, globalBbox, env, st.statements);
      Run(w, globalBbox, env, st) == Outcome(Put(u.env, Some(st.into), u.result), u.result, u.output)
  {
    hide RunAll;
  }

  // ----- Sorting -----

  method LeastOf(s: set<int>) returns (x: int)
    requires s != {}
    ensures x == Least(s)
  {
    x := Pick(s);
    var rest := s;
    while rest != {}
      invariant rest <= s && x in s && forall y :: y in s && y !in rest ==> x <= y
      decreases |rest|
    {
      var y := Pick(rest);
      if y < x {
        x := y;
      }
      rest := rest - {y};
    }
    assert IsLeast(s, x) && IsLeast(s, Least(s));
  }

  method Sorted(s: set<int>) returns (ids: seq<int>)
    ensures ids == Ascending(s)
  {
    hide Least;
    ids := [];
    var rest := s;
    while rest != {}
      invariant ids + Ascending(rest) == Ascending(s)
      decreases |rest|
    {
      var x := LeastOf(rest);
      LeastFirst(ids, rest, x);
      ids, rest := ids + [x], rest - {x};
    }
  }

  lemma LeastFirst(ids: seq<int>, rest: set<int>, x: int)
    requires rest != {} && x == Least(rest)
    ensures ids + Ascending(rest) == (ids + [x]) + Ascending(rest - {x})
  {
  }

  /** The sequence InOrder of a set, from its three kinds. */
  method Ordered(s: Ids) returns (ordered: seq<(Kind, int)>)
    ensures ordered == InOrder(s)
  {
    var nodes := Sorted(s.node);
    var ways := Sorted(s.way);
    var relations := Sorted(s.relation);
    return Tagged(Node, nodes) + Tagged(Way, ways) + Tagged(Relation, relations);
  }

  /** A set of objects, as statements make, name and read them. */
  class ElementSet {
    var ids: Ids

    constructor (ids: Ids)
      ensures this.ids == ids
    {
      this.ids := ids;
    }
  }

  class Evaluator {
    const searcher: Searcher
    const globalBbox: Option<Bbox>
    var sets: map<string, ElementSet>
    var output: seq<Output>
    var outputSize: nat

    constructor (searcher: Searcher, globalBbox: Option<Bbox>)
      requires searcher.Valid() && WellFormed(searcher.source.w.data)
      ensures this.searcher == searcher && this.globalBbox == globalBbox
      ensures Valid() && Env() == map[] && output == []
    {
      this.searcher, this.globalBbox := searcher, globalBbox;
      sets, output, outputSize := map[], [], 0;
    }

    ghost function Objects(): set<ElementSet>
      reads this
    {
      sets.Values
    }

    /** The named sets by their contents. */
    function Env(): Env
      reads this, sets.Values
    {
      map n | n in sets :: sets[n].ids
    }

    /** Nothing stored and nothing printed is over the limit, and all of it is of the map. */
    ghost predicate Valid()
      reads this, searcher, sets.Values
    {
      && searcher.Valid()
      && WellFormed(searcher.source.w.data)
      && EnvInMap(searcher.source.w.data, Env())
      && (forall n :: n in sets ==> Size(sets[n].ids) <= searcher.limits.maxElements)
      && outputSize == Printed(output) <= searcher.limits.maxElements
    }

    method GetSet(name: string) returns (s: ElementSet)
      requires Valid()
      ensures s.ids == OverpassMeaning.GetSet(Env(), name)
      ensures if name in sets then s == sets[name] else fresh(s)
      ensures InMap(searcher.source.w.data, s.ids) && Size(s.ids) <= searcher.limits.maxElements
    {
      if name in sets {
        return sets[name];
      }
      s := new ElementSet(NONE);
    }

    /** Keep a result under a name, if it has one; the same object may have several. */
    method Store(name: Option<string>, s: ElementSet) returns (r: Result<ElementSet, QueryError>)
      requires Valid() && InMap(searcher.source.w.data, s.ids)
      modifies this`sets
      ensures r == if Size(s.ids) <= searcher.limits.maxElements then Success(s) else Failure(TooManyElements)
      ensures r.Failure? ==> !searcher.Small()
      ensures r.Success? ==> Valid() && Env() == Put(old(Env()), name, s.ids) && Objects() <= old(Objects()) + {s}
      ensures r.Success? && name.Some? ==> name.value in sets && sets[name.value] == s
    {
      hide Size, WellFormed, InMap, Roomy, CacheOk, Printed;
      InMapIsSmall(searcher.source.w.data, s.ids, searcher.limits);
      if Size(s.ids) > searcher.limits.maxElements {
        return Failure(TooManyElements);
      }
      if name.Some? {
        sets := sets[name.value := s];
      }
      assert Env() == Put(old(Env()), name, s.ids);
      return Success(s);
    }

    /** Print a set: its counts, or its objects in order up to a limit, with what drawing them needs. */
    method PrintSet(st: Statement) returns (r: Result<(), QueryError>)
      requires Valid() && st.Print?
      modifies this`output, this`outputSize
      ensures r.Success? ==> Valid() && output == old(output) + Run(searcher.source.w, globalBbox, Env(), st).output
      ensures r.Failure? ==> Refused(old(Env()), st, old(output), r.error)
    {
      hide ShapeOf, Ascending, WellFormed, InMap, Roomy, CacheOk, Size, EnvInMap;
      var s := GetSet(st.from);
      ghost var meant := PrintMeaning(searcher.source.w.data, s.ids, st);
      PrintedBoth(output, [meant]);
      PrintedOne(meant);
      if st.mode.Count? {
        output := output + [Counts(st, PerKind(|s.ids.node|, |s.ids.way|, |s.ids.relation|))];
        assert output == old(output) + [meant] && Env() == old(Env());
        return Success(());
      }
      var ordered := Ordered(s.ids);
      ordered := FirstOf(ordered, st.limit);
      outputSize := outputSize + |ordered|;
      if outputSize > searcher.limits.maxElements {
        return Failure(TooManyElements);
      }
      var shape: Option<Shape> := None;
      if st.geometry.Some? {
        var drawn :- ResolveGeometry(searcher.source, s.ids, OfKind(ordered, Way), OfKind(ordered, Relation));
        shape := Some(drawn);
      }
      output := output + [Listed(st, ordered, shape)];
      assert output == old(output) + [meant] && Env() == old(Env());
      return Success(());
    }

    lemma PrintedOne(o: Output)
      ensures Printed([o]) == PrintedBy(o)
    {
      assert Printed([o][..0]) == 0;
    }

    // ----- Statements -----

    /** What running a statement has made of the state. */
    ghost predicate Executed(env: Env, st: Statement, before: seq<Output>, result: ElementSet)
      reads this, searcher, sets.Values, result
    {
      EnvInMap(searcher.source.w.data, env) &&
      var o := Run(searcher.source.w, globalBbox, env, st);
      && Valid()
      && Size(result.ids) <= searcher.limits.maxElements
      && Env() == o.env && result.ids == o.result && output == before + o.output
    }

    /** What running statements one after another has made of the state. */
    ghost predicate ExecutedAll(env: Env, statements: seq<Statement>, before: seq<Output>, result: Ids)
      reads this, searcher, sets.Values
    {
      EnvInMap(searcher.source.w.data, env) &&
      var o := RunAll(searcher.source.w, globalBbox, env, statements);
      && Valid()
      && Env() == o.env && result == o.result && output == before + o.output
    }

    /** Only storing the result under a name is left to do. */
    ghost predicate ToStore(env: Env, st: Statement, before: seq<Output>, into: Option<string>, result: ElementSet)
      reads this, searcher, sets.Values, result
    {
      EnvInMap(searcher.source.w.data, env) &&
      var o := Run(searcher.source.w, globalBbox, env, st);
      && Valid()
      && result.ids == o.result && o.env == Put(Env(), into, result.ids) && output == before + o.output
    }

    /** A statement may be refused, after some output. */
    ghost predicate Refused(env: Env, st: Statement, before: seq<Output>, error: QueryError) {
      && EnvInMap(searcher.source.w.data, env)
      && Refusable(searcher.source.w, globalBbox, env, st, searcher.limits, Printed(before), error)
    }

    ghost predicate AnyRefused(env: Env, statements: seq<Statement>, before: seq<Output>, error: QueryError) {
      && EnvInMap(searcher.source.w.data, env)
      && AnyRefusable(searcher.source.w, globalBbox, env, statements, searcher.limits, Printed(before), error)
    }

    method StoreResult(ghost env: Env, ghost st: Statement, ghost before: seq<Output>, into: Option<string>, result: ElementSet)
        returns (r: Result<ElementSet, QueryError>)
      requires ToStore(env, st, before, into, result)
      modifies this`sets
      ensures r.Success? ==> Executed(env, st, before, r.value) && Objects() <= old(Objects()) + {result}
      ensures r.Success? ==> r.value == result && (into.Some? ==> into.value in sets && sets[into.value] == result)
      ensures r.Failure? ==> Refused(env, st, before, r.error)
    {
      hide Run, WellFormed, Size, Roomy, CacheOk, Printed, Put;
      r := Store(into, result);
    }

    /** A query: a new set of what it finds. */
    method ExecuteQuery(st: Statement) returns (r: Result<ElementSet, QueryError>)
      requires Valid() && st.Query?
      modifies this`sets, searcher`regionCache
      ensures r.Success? ==> Executed(old(Env()), st, old(output), r.value) && fresh(Objects() - old(Objects()))
      ensures r.Failure? ==> Refused(old(Env()), st, old(output), r.error)
    {
      hide QueryMeaning, MayRefuse, WellFormed, Size, Roomy, CacheOk, Printed, Executed;
      var found :- Querying.Query(searcher, Env(), globalBbox, st.types, st.filters);
      var result := new ElementSet(found);
      assert Env() == old(Env());
      r := StoreResult(Env(), st, output, Some(st.into), result);
    }

    /** A recursion: a new set of what it finds from a set. */
    method ExecuteRecurse(st: Statement) returns (r: Result<ElementSet, QueryError>)
      requires Valid() && st.Recurse?
      modifies this`sets
      ensures r.Success? ==> Executed(old(Env()), st, old(output), r.value) && fresh(Objects() - old(Objects()))
      ensures r.Failure? ==> Refused(old(Env()), st, old(output), r.error)
    {
      hide RecurseMeaning, WellFormed, Size, Roomy, CacheOk, Printed, Executed;
      var s := GetSet(st.from);
      var found :- Recursing.Recurse(searcher.source, st.kind, s.ids);
      var result := new ElementSet(found);
      r := StoreResult(Env(), st, output, Some(st.into), result);
    }

    /** An item: no new set, but the very one that it names, perhaps under a second name. */
    method ExecuteItem(st: Statement) returns (r: Result<ElementSet, QueryError>)
      requires Valid() && st.Item?
      modifies this`sets
      ensures r.Success? ==> Executed(old(Env()), st, old(output), r.value) && fresh(Objects() - old(Objects()))
      ensures r.Success? && st.from in old(sets) ==> r.value == old(sets)[st.from]
      ensures r.Success? && st.itemInto.Some? ==> st.itemInto.value in sets && sets[st.itemInto.value] == r.value
      ensures r.Failure? ==> Refused(old(Env()), st, old(output), r.error)
    {
      hide WellFormed, Size, Roomy, CacheOk, Printed, Executed;
      var s := GetSet(st.from);
      r := StoreResult(Env(), st, output, st.itemInto, s);
    }

    /** One statement comes to what Run says of it, or is refused for a reason that Refused allows. */
    method Execute(st: Statement) returns (r: Result<ElementSet, QueryError>)
      requires Valid()
      modifies this`sets, this`output, this`outputSize, searcher`regionCache
      ensures r.Success? ==> Executed(old(Env()), st, old(output), r.value) && fresh(Objects() - old(Objects()))
      ensures r.Failure? ==> Refused(old(Env()), st, old(output), r.error)
      decreases st
    {
      hide QueryMeaning, RecurseMeaning, RunAll, AnyRefusable, WellFormed, Size, Roomy, CacheOk, Printed;
      match st
      case Query(_, _, _) => r := ExecuteQuery(st);
      case Union(_, _) => r := ExecuteUnion(st);
      case Difference(_, _, _) => r := ExecuteDifference(st);
      case Item(_, _) => r := ExecuteItem(st);
      case Recurse(_, _, _) => r := ExecuteRecurse(st);
      case Print(_, _, _, _, _) =>
        var _ :- PrintSet(st);
        var none := new ElementSet(NONE);
        assert Size(NONE) == 0 by {
          NothingIsSmall();
        }
        return Success(none);
    }

    method ExecuteUnion(st: Statement) returns (r: Result<ElementSet, QueryError>)
      requires Valid() && st.Union?
      modifies this`sets, this`output, this`outputSize, searcher`regionCache
      ensures r.Success? ==> Executed(old(Env()), st, old(output), r.value) && fresh(Objects() - old(Objects()))
      ensures r.Failure? ==> Refused(old(Env()), st, old(output), r.error)
      decreases st, 0
    {
      hide Valid, Env, Executed, ExecutedAll, ToStore, Refused, AnyRefused;
      ghost var env, before := Env(), output;
      var result := new ElementSet(NONE);
      RefusedUnion(env, st, before);
      var _ :- ExecuteAll(st.statements, result);
      UnionToStore(env, st, before, result);
      r := StoreResult(env, st, before, Some(st.into), result);
    }

    lemma RefusedUnion(env: Env, st: Statement, before: seq<Output>)
      requires st.Union?
      ensures forall error :: AnyRefused(env, st.statements, before, error) ==> Refused(env, st, before, error)
    {
      hide AnyRefusable, Printed, RunAll, Roomy;
    }

    lemma UnionToStore(env: Env, st: Statement, before: seq<Output>, result: ElementSet)
      requires st.Union? && ExecutedAll(env, st.statements, before, result.ids)
      ensures Valid() && ToStore(env, st, before, Some(st.into), result)
    {
      hide Run, RunAll, Valid, Env, Put;
      RunUnion(searcher.source.w, globalBbox, env, st);
    }

    method ExecuteDifference(st: Statement) returns (r: Result<ElementSet, QueryError>)
      requires Valid() && st.Difference?
      modifies this`sets, this`output, this`outputSize, searcher`regionCache
      ensures r.Success? ==> Executed(old(Env()), st, old(output), r.value) && fresh(Objects() - old(Objects()))
      ensures r.Failure? ==> Refused(old(Env()), st, old(output), r.error)
      decreases st, 0
    {
      hide Valid, Env, Executed, ToStore, Refused, Minus;
      ghost var env, before := Env(), output;
      RefusedDifference(env, st, before);
      var first :- Execute(st.first);
      ghost var env', between := Env(), output;
      ValidThen(env, st.first, before, first);
      var second :- Execute(st.second);
      var result := new ElementSet(Minus(first.ids, second.ids));
      DifferenceToStore(env, st, before, env', between, first.ids, second, result);
      r := StoreResult(env, st, before, Some(st.into), result);
    }

    lemma ValidThen(env: Env, st: Statement, before: seq<Output>, result: ElementSet)
      requires Executed(env, st, before, result)
      ensures Valid() && After(env, st, before, Env(), output, result.ids)
    {
    }

    /** A statement's outcome, from some sets and output to others. */
    ghost predicate After(env: Env, st: Statement, before: seq<Output>, env': Env, output': seq<Output>, result: Ids) {
      EnvInMap(searcher.source.w.data, env) &&
      var o := Run(searcher.source.w, globalBbox, env, st);
      env' == o.env && result == o.result && output' == before + o.output
    }

    lemma RefusedDifference(env: Env, st: Statement, before: seq<Output>)
      requires st.Difference?
      ensures forall error :: Refused(env, st.first, before, error) ==> Refused(env, st, before, error)
      ensures forall error, env', between, first ::
        After(env, st.first, before, env', between, first) && Refused(env', st.second, between, error) ==>
          Refused(env, st, before, error)
    {
      hide Printed, Run;
      forall env', between, first | After(env, st.first, before, env', between, first)
        ensures Printed(between) == Printed(before) + Printed(Run(searcher.source.w, globalBbox, env, st.first).output)
      {
        PrintedBoth(before, Run(searcher.source.w, globalBbox, env, st.first).output);
      }
    }

    lemma DifferenceToStore(env: Env, st: Statement, before: seq<Output>, env': Env, between: seq<Output>, first: Ids,
                            second: ElementSet, result: ElementSet)
      requires st.Difference? && After(env, st.first, before, env', between, first)
      requires Executed(env', st.second, between, second) && result.ids == Minus(first, second.ids)
      ensures Valid() && ToStore(env, st, before, Some(st.into), result)
    {
      hide Run, Valid, Env, Put, Minus;
      RunDifference(searcher.source.w, globalBbox, env, st);
    }

    /** Run statements one after another, adding what they return to a set. */
    method ExecuteAll(statements: seq<Statement>, result: ElementSet) returns (r: Result<(), QueryError>)
      requires Valid() && result.ids == NONE && result !in Objects()
      modifies this`sets, this`output, this`outputSize, searcher`regionCache, result
      ensures r.Success? ==>
        && ExecutedAll(old(Env()), statements, old(output), result.ids)
        && fresh(Objects() - old(Objects()))
      ensures r.Failure? ==> AnyRefused(old(Env()), statements, old(output), r.error)
      decreases statements
    {
      hide Run, RunAll, AnyRefusable, Refusable, WellFormed, Size, Roomy, CacheOk, Printed;
      ghost var w, env, before := searcher.source.w, Env(), output;
      RunNothing(w, globalBbox, env, statements);
      for i := 0 to |statements|
        invariant ExecutedAll(env, statements[..i], before, result.ids)
        invariant fresh(Objects() - old(Objects())) && result !in Objects()
      {
        ghost var o := RunAll(w, globalBbox, env, statements[..i]);
        PrintedBoth(before, o.output);
        RefusableThen(w, globalBbox, env, statements, searcher.limits, Printed(before), i);
        var part :- Execute(statements[i]);
        RunOneMore(w, globalBbox, env, statements, i);
        result.ids := Join(result.ids, part.ids);
      }
      assert statements[..|statements|] == statements;
      return Success(());
    }

    /** Run a whole script, giving what it prints: exactly what it means, or an error. */
    method RunScript(statements: seq<Statement>) returns (r: Result<seq<Output>, QueryError>)
      requires Valid() && output == [] && Env() == map[]
      modifies this`sets, this`output, this`outputSize, searcher`regionCache
      ensures r.Success? ==>
        && Valid()
        && r.value == RunAll(searcher.source.w, globalBbox, map[], statements).output
        && Env() == RunAll(searcher.source.w, globalBbox, map[], statements).env
      ensures r.Failure? ==>
        AnyRefusable(searcher.source.w, globalBbox, map[], statements, searcher.limits, 0, r.error)
    {
      hide Run, RunAll, AnyRefusable, WellFormed, Size, Roomy, CacheOk, PrintedBy;
      var unused := new ElementSet(NONE);
      var _ :- ExecuteAll(statements, unused);
      return Success(output);
    }
  }

  // ----- Scripts that are answered -----

  /** A script of queries that the server answers: supported, selective, and measuring from few positions. */
  ghost predicate Answerable(st: Statement)
    decreases st
  {
    match st
    case Query(types, filters, _) => Supported(filters) && Selective(filters) && Distinct(types)
    case Union(statements, _) => forall i :: 0 <= i < |statements| ==> Answerable(statements[i])
    case Difference(first, second, _) => Answerable(first) && Answerable(second)
    case _ => true
  }

  ghost predicate WithinLimits(w: World, limits: Limits) {
    WellFormed(w.data) && Roomy(w.data, limits) && |w.data.node| <= AROUND_POSITIONS_MAXIMUM
  }

  /** On a map within the limits, such a statement is refused only for printing too much. */
  lemma {:induction false} RefusedForPrinting(w: World, globalBbox: Option<Bbox>, env: Env, st: Statement, limits: Limits,
                                              printed: nat, error: QueryError)
    requires EnvInMap(w.data, env) && WithinLimits(w, limits) && Answerable(st)
    requires Refusable(w, globalBbox, env, st, limits, printed, error)
    ensures printed + Printed(Run(w, globalBbox, env, st).output) > limits.maxElements
    decreases st
  {
    hide Roomy, WellFormed, QueryMeaning, RecurseMeaning, PrintMeaning;
    match st
    case Union(statements, _) =>
      AnyRefusedForPrinting(w, globalBbox, env, statements, limits, printed, error);
    case Difference(first, second, _) =>
      var a := Run(w, globalBbox, env, first);
      PrintedBoth(a.output, Run(w, globalBbox, a.env, second).output);
      if Refusable(w, globalBbox, env, first, limits, printed, error) {
        RefusedForPrinting(w, globalBbox, env, first, limits, printed, error);
      } else {
        RefusedForPrinting(w, globalBbox, a.env, second, limits, printed + Printed(a.output), error);
      }
    case _ =>
  }

  lemma {:induction false} AnyRefusedForPrinting(w: World, globalBbox: Option<Bbox>, env: Env, statements: seq<Statement>,
                                                 limits: Limits, printed: nat, error: QueryError)
    requires EnvInMap(w.data, env) && WithinLimits(w, limits)
    requires forall i :: 0 <= i < |statements| ==> Answerable(statements[i])
    requires AnyRefusable(w, globalBbox, env, statements, limits, printed, error)
    ensures printed + Printed(RunAll(w, globalBbox, env, statements).output) > limits.maxElements
    decreases statements
  {
    hide Run, Refusable, Answerable, WithinLimits;
    var init, last := statements[..|statements| - 1], statements[|statements| - 1];
    var before := RunAll(w, globalBbox, env, init);
    PrintedBoth(before.output, Run(w, globalBbox, before.env, last).output);
    if AnyRefusable(w, globalBbox, env, init, limits, printed, error) {
      AnyRefusedForPrinting(w, globalBbox, env, init, limits, printed, error);
    } else {
      RefusedForPrinting(w, globalBbox, before.env, last, limits, printed + Printed(before.output), error);
    }
  }

  // ----- What counts towards the limits -----

  /** What counts towards the limit on printing is every object that is listed, and
      nothing that is only counted; towards that on sets, every object of them. */
  lemma {:induction false} CountsTowardsLimits(output: seq<Output>, listed: nat -> nat, a: Ids)
    requires forall i :: 0 <= i < |output| ==> listed(i) == if output[i].Listed? then |output[i].ordered| else 0
    ensures Printed(output) == Sum(listed, |output|)
    ensures Size(a) == |a.node| + |a.way| + |a.relation|
  {
    if |output| > 0 {
      CountsTowardsLimits(output[..|output| - 1], listed, a);
    }
  }

  function Sum(f: nat -> nat, n: nat): nat {
    if n == 0 then 0 else Sum(f, n - 1) + f(n - 1)
  }
}
