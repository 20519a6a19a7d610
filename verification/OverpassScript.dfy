/** What the statements of a script mean: the sets they leave and what they print. */
module OverpassScript {
  import opened Wrappers
  import opened Osm
  import opened Sets
  import opened Ql
  import opened OverpassMeaning
  import opened OverpassRecursion

  /** The nodes whose positions, and the ways whose nodes, drawing needs. */
  datatype Shape = Shape(coords: set<int>, ways: set<int>)

  datatype Output =
    | Counts(statement: Statement, sizes: PerKind<nat>)
    | Listed(statement: Statement, ordered: seq<(Kind, int)>, shape: Option<Shape>)

  datatype Outcome = Outcome(env: Env, result: Ids, output: seq<Output>)

  // ----- Printing -----

  ghost predicate IsLeast(s: set<int>, x: int) {
    x in s && forall y :: y in s ==> x <= y
  }

  ghost function Least(s: set<int>): (x: int)
    requires s != {}
    ensures IsLeast(s, x)
    decreases |s|
  {
    var x := Choose(s);
    if s == {x} then x
    else
      var y := Least(s - {x});
      assert forall z :: z in s ==> z == x || z in s - {x};
      if y < x then y else x
  }

  ghost function Ascending(s: set<int>): seq<int>
    decreases |s|
  {
    if s == {} then [] else [Least(s)] + Ascending(s - {Least(s)})
  }

  predicate Rising(ids: seq<int>) {
    forall i, j :: 0 <= i < j < |ids| ==> ids[i] < ids[j]
  }

  lemma RisingFrom(x: int, ids: seq<int>)
    requires Rising(ids) && forall y :: y in ids ==> x < y
    ensures Rising([x] + ids)
  {
    assert forall j :: 0 <= j < |ids| ==> ids[j] in ids;
  }

  lemma NoneRise()
    ensures Rising([])
  {
  }

  /** The members of a set, each once, and each less than the next. */
  lemma {:induction false} AscendingIs(s: set<int>)
    ensures Rising(Ascending(s)) && |Ascending(s)| == |s|
    ensures forall x :: x in Ascending(s) <==> x in s
    decreases |s|
  {
    hide Rising;
    if s == {} {
      NoneRise();
    } else {
      var x, rest := Least(s), s - {Least(s)};
      AscendingIs(rest);
      assert IsLeast(s, x);
      assert x !in rest && s == rest + {x};
      RisingFrom(x, Ascending(rest));
    }
  }

  function Tagged(k: Kind, ids: seq<int>): seq<(Kind, int)> {
    seq(|ids|, i requires 0 <= i < |ids| => (k, ids[i]))
  }

  /** The objects of a set as they are printed: by kind, then by ascending ID. */
  ghost function InOrder(s: Ids): seq<(Kind, int)> {
    Tagged(Node, Ascending(s.node)) + Tagged(Way, Ascending(s.way)) + Tagged(Relation, Ascending(s.relation))
  }

  function Rank(k: Kind): int {
    match k
    case Node => 0
    case Way => 1
    case Relation => 2
  }

  /** Nodes come before ways, ways before relations, and lower IDs before higher. */
  predicate Before(x: (Kind, int), y: (Kind, int)) {
    Rank(x.0) < Rank(y.0) || (x.0 == y.0 && x.1 < y.1)
  }

  ghost predicate Listing(ordered: seq<(Kind, int)>) {
    forall i, j :: 0 <= i < j < |ordered| ==> Before(ordered[i], ordered[j])
  }

  lemma TaggedIs(k: Kind, s: set<int>)
    ensures var tagged := Tagged(k, Ascending(s));
      && Listing(tagged) && |tagged| == |s| && forall x :: x in tagged <==> x.0 == k && x.1 in s
  {
    AscendingIs(s);
    var ids, tagged := Ascending(s), Tagged(k, Ascending(s));
    forall x
      ensures x in tagged <==> x.0 == k && x.1 in s
    {
      if x.0 == k && x.1 in ids {
        var i :| 0 <= i < |ids| && ids[i] == x.1;
        assert tagged[i] == x;
      }
      if x in tagged {
        var i :| 0 <= i < |tagged| && tagged[i] == x;
        assert ids[i] in ids;
      }
    }
  }

  lemma ListingThen(a: seq<(Kind, int)>, b: seq<(Kind, int)>)
    requires Listing(a) && Listing(b) && forall x, y :: x in a && y in b ==> Before(x, y)
    ensures Listing(a + b)
  {
    forall i, j | 0 <= i < j < |a + b|
      ensures Before((a + b)[i], (a + b)[j])
    {
      if i < |a| <= j {
        assert a[i] in a && b[j - |a|] in b;
      }
    }
  }

  /** The objects of a set, all of them, each once, one before the next. */
  lemma InOrderIs(s: Ids)
    ensures Listing(InOrder(s)) && |InOrder(s)| == |s.node| + |s.way| + |s.relation|
    ensures forall x :: x in InOrder(s) <==> x.1 in s.Of(x.0)
  {
    TaggedIs(Node, s.node);
    TaggedIs(Way, s.way);
    TaggedIs(Relation, s.relation);
    hide Ascending, Tagged, Listing;
    var nodes, ways, relations :=
      Tagged(Node, Ascending(s.node)), Tagged(Way, Ascending(s.way)), Tagged(Relation, Ascending(s.relation));
    ListingThen(nodes, ways);
    ListingThen(nodes + ways, relations);
  }

  function FirstOf(ordered: seq<(Kind, int)>, limit: Option<nat>): seq<(Kind, int)> {
    if limit.Some? && limit.value < |ordered| then ordered[..limit.value] else ordered
  }

  function OfKind(ordered: seq<(Kind, int)>, k: Kind): set<int> {
    set x | x in ordered && x.0 == k :: x.1
  }

  /** What drawing some of a set's objects needs. */
  ghost function ShapeOf(m: MapData, s: Ids, ways: set<int>, relations: set<int>): Shape {
    var memberWays := MembersOf(m, relations, Way, None);
    var known := s.way + (memberWays * m.way.Keys);
    var needed := MembersOf(m, relations, Node, None) + RefsOf(m, ways) + RefsOf(m, memberWays * known);
    Shape(s.node + (needed * m.node.Keys), known)
  }

  ghost function PrintMeaning(m: MapData, s: Ids, st: Statement): Output
    requires st.Print?
  {
    if st.mode.Count? then Counts(st, PerKind(|s.node|, |s.way|, |s.relation|))
    else
      var ordered := FirstOf(InOrder(s), st.limit);
      Listed(st, ordered,
             if st.geometry.Some? then Some(ShapeOf(m, s, OfKind(ordered, Way), OfKind(ordered, Relation))) else None)
  }

  // ----- Statements -----

  function Minus(a: Ids, b: Ids): Ids {
    PerKind(a.node - b.node, a.way - b.way, a.relation - b.relation)
  }

  ghost function Run(w: World, globalBbox: Option<Bbox>, env: Env, st: Statement): (r: Outcome)
    requires EnvInMap(w.data, env)
    ensures EnvInMap(w.data, r.env) && InMap(w.data, r.result)
    decreases st
  {
    match st
    case Query(types, filters, into) =>
      var q := QueryMeaning(w, env, globalBbox, types, filters);
      Outcome(Put(env, Some(into), q), q, [])
    case Item(from, into) =>
      Outcome(Put(env, into, GetSet(env, from)), GetSet(env, from), [])
    case Union(statements, into) =>
      var u := RunAll(w, globalBbox, env, statements);
      Outcome(Put(u.env, Some(into), u.result), u.result, u.output)
    case Difference(first, second, into) =>
      var a := Run(w, globalBbox, env, first);
      var b := Run(w, globalBbox, a.env, second);
      var d := Minus(a.result, b.result);
      Outcome(Put(b.env, Some(into), d), d, a.output + b.output)
    case Recurse(kind, from, into) =>
      var q := RecurseMeaning(w.data, kind, GetSet(env, from));
      Outcome(Put(env, Some(into), q), q, [])
    case Print(from, _, _, _, _) =>
      Outcome(env, NONE, [PrintMeaning(w.data, GetSet(env, from), st)])
  }

  /** Statements one after another, their results joined. */
  ghost function RunAll(w: World, globalBbox: Option<Bbox>, env: Env, statements: seq<Statement>): (r: Outcome)
    requires EnvInMap(w.data, env)
    ensures EnvInMap(w.data, r.env) && InMap(w.data, r.result)
    decreases statements
  {
    if |statements| == 0 then Outcome(env, NONE, [])
    else
      var before := RunAll(w, globalBbox, env, statements[..|statements| - 1]);
      var last := Run(w, globalBbox, before.env, statements[|statements| - 1]);
      Outcome(last.env, Join(before.result, last.result), before.output + last.output)
  }

  // ----- What a statement leaves alone -----

  /** The named sets that a statement and its children write. */
  function Writes(st: Statement): set<string> {
    match st
    case Query(_, _, into) => {into}
    case Item(_, into) => if into.Some? then {into.value} else {}
    case Union(statements, into) => WritesOfAll(statements) + {into}
    case Difference(first, second, into) => Writes(first) + Writes(second) + {into}
    case Recurse(_, _, into) => {into}
    case Print(_, _, _, _, _) => {}
  }

  function WritesOfAll(statements: seq<Statement>): set<string>
    decreases statements
  {
    if |statements| == 0 then {}
    else WritesOfAll(statements[..|statements| - 1]) + Writes(statements[|statements| - 1])
  }

  ghost predicate SameSets(env: Env, env': Env, written: set<string>) {
    forall n :: n !in written ==> (n in env <==> n in env') && (n in env ==> env[n] == env'[n])
  }

  /** Only the named sets that a statement or its children write are changed. */
  lemma {:induction false} OnlyWritesItsSets(w: World, globalBbox: Option<Bbox>, env: Env, st: Statement)
    requires EnvInMap(w.data, env)
    ensures SameSets(env, Run(w, globalBbox, env, st).env, Writes(st))
    decreases st
  {
    match st
    case Union(statements, into) =>
      OnlyWriteTheirSets(w, globalBbox, env, statements);
    case Difference(first, second, into) =>
      OnlyWritesItsSets(w, globalBbox, env, first);
      OnlyWritesItsSets(w, globalBbox, Run(w, globalBbox, env, first).env, second);
    case _ =>
  }

  lemma {:induction false} OnlyWriteTheirSets(w: World, globalBbox: Option<Bbox>, env: Env, statements: seq<Statement>)
    requires EnvInMap(w.data, env)
    ensures SameSets(env, RunAll(w, globalBbox, env, statements).env, WritesOfAll(statements))
    decreases statements
  {
    if |statements| > 0 {
      var init := statements[..|statements| - 1];
      OnlyWriteTheirSets(w, globalBbox, env, init);
      OnlyWritesItsSets(w, globalBbox, RunAll(w, globalBbox, env, init).env, statements[|statements| - 1]);
    }
  }
}
