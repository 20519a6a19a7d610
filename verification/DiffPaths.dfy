/** The paths of replication diffs: three numbers that name one minute, hour or
    day, and the catalogues that list them. */
module DiffPaths {
  import opened Wrappers

  datatype Timebase = Minute | Hour | Day

  /** When diffs begin, and the number of the first page. */
  datatype Settings = Settings(epoch: int, offset: int)

  datatype Path = Path(cat1: int, cat2: int, cat3: int)

  function Unit(timebase: Timebase): int {
    match timebase
    case Minute => 60
    case Hour => 60 * 60
    case Day => 60 * 60 * 24
  }

  /** How much time a page of a thousand pages covers. */
  function PageStep(timebase: Timebase): int {
    match timebase
    case Minute => 60000000
    case Hour => 60000000 * 60
    case Day => 60000000 * 60 * 24
  }

  /** The path of the diff that a time is in. */
  function TimestampToPath(cfg: Settings, timebase: Timebase, ts: int): Path {
    var pageStep3 := Unit(timebase);
    var pageStep2 := pageStep3 * 1000;
    var pageStep := pageStep2 * 1000;
    var ts2 := ts - cfg.epoch;
    var ts2 := ts2 - ts2 % pageStep3;
    var b := ts2 % pageStep2;
    var ts2 := ts2 - b;
    var c := ts2 % pageStep;
    var ts2 := ts2 - c;
    Path(ts2 / pageStep + cfg.offset, c / pageStep2, b / pageStep3 + 1)
  }

  /** The time at which a path's diff ends. */
  function End(cfg: Settings, timebase: Timebase, p: Path): int {
    var pageStep := PageStep(timebase);
    var pageStep2 := pageStep / 1000;
    var pageStep3 := pageStep2 / 1000;
    (p.cat1 - cfg.offset) * pageStep + p.cat2 * pageStep2 + p.cat3 * pageStep3 + cfg.epoch
  }

  /** The times that a path's diff is read for: from the first to before the second. */
  function Interval(cfg: Settings, timebase: Timebase, p: Path): (int, int) {
    var end := End(cfg, timebase, p);
    (end - PageStep(timebase) / 1000 / 1000, end)
  }

  predicate Within(ts: int, interval: (int, int)) {
    interval.0 <= ts < interval.1
  }

  /** The numbers as a time's path has them. */
  predicate InRange(p: Path) {
    0 <= p.cat2 <= 999 && 1 <= p.cat3 <= 1000
  }

  // ----- A time and its path -----

  /** How many units a path's diff begins after the epoch. */
  function UnitsOf(cfg: Settings, p: Path): int {
    (p.cat1 - cfg.offset) * 1000000 + p.cat2 * 1000 + p.cat3 - 1
  }

  lemma StepsAreUnits(timebase: Timebase)
    ensures PageStep(timebase) == Unit(timebase) * 1000000
    ensures PageStep(timebase) / 1000 == Unit(timebase) * 1000
    ensures PageStep(timebase) / 1000 / 1000 == Unit(timebase) > 0
  {
  }

  lemma Distribute(x: int, y: int, u: int)
    ensures (x + y) * u == x * u + y * u
    ensures x * (u * 1000) == x * 1000 * u
    ensures x * (u * 1000000) == x * 1000000 * u
  {
  }

  /** A path's diff ends after so many units. */
  lemma EndIsUnits(cfg: Settings, timebase: Timebase, p: Path)
    ensures End(cfg, timebase, p) == cfg.epoch + (UnitsOf(cfg, p) + 1) * Unit(timebase)
  {
    var u, x, y, z := Unit(timebase), p.cat1 - cfg.offset, p.cat2, p.cat3;
    StepsAreUnits(timebase);
    hide Unit, PageStep;
    Distribute(x, 0, u);
    Distribute(y, 0, u);
    Distribute(x * 1000000, y * 1000, u);
    Distribute(x * 1000000 + y * 1000, z, u);
  }

  lemma IntervalIsUnits(cfg: Settings, timebase: Timebase, p: Path)
    ensures Interval(cfg, timebase, p).0 == cfg.epoch + UnitsOf(cfg, p) * Unit(timebase)
    ensures Interval(cfg, timebase, p).1 == cfg.epoch + (UnitsOf(cfg, p) + 1) * Unit(timebase)
  {
    StepsAreUnits(timebase);
    EndIsUnits(cfg, timebase, p);
    hide Unit, PageStep, End, UnitsOf;
    Distribute(UnitsOf(cfg, p), 1, Unit(timebase));
  }

  lemma DifferenceTimes(x: int, y: int, u: int)
    ensures (x - y) * u == x * u - y * u
  {
  }

  lemma AtLeastOnce(k: int, u: int)
    requires k >= 1 && u > 0
    ensures k * u >= u
  {
    DifferenceTimes(k, 1, u);
    assert (k - 1) * u >= 0;
  }

  lemma DividesBack(x: int, d: int)
    requires d > 0
    ensures x == (x / d) * d + x % d && 0 <= x % d < d
  {
  }

  /** Quotient and remainder are the only ones that fit. */
  lemma QuotientIs(x: int, d: int, q: int, r: int)
    requires d > 0 && x == q * d + r && 0 <= r < d
    ensures x / d == q && x % d == r
  {
    DividesBack(x, d);
    OneQuotient(d, q, r, x / d, x % d);
  }

  lemma OneQuotient(d: int, q: int, r: int, q': int, r': int)
    requires d > 0 && q * d + r == q' * d + r' && 0 <= r < d && 0 <= r' < d
    ensures q == q' && r == r'
  {
    DifferenceTimes(q, q', d);
    DifferenceTimes(q', q, d);
    if q > q' {
      AtLeastOnce(q - q', d);
    } else if q < q' {
      AtLeastOnce(q' - q, d);
    }
  }

  lemma FitsInThousand(j: int, u: int)
    requires 0 <= j < 1000 && u > 0
    ensures 0 <= j * u < u * 1000
  {
    DifferenceTimes(1000, j, u);
    AtLeastOnce(1000 - j, u);
    assert 0 <= j * u;
  }

  /** Splitting a number of units into thousands. */
  lemma Thousands(n: int, u: int)
    requires u > 0
    ensures (n * u) % (u * 1000) == (n % 1000) * u
    ensures (n * u) / (u * 1000) == n / 1000
    ensures n * u - (n % 1000) * u == (n / 1000) * (u * 1000)
  {
    var k, j := n / 1000, n % 1000;
    FitsInThousand(j, u);
    SplitTimes(k, j, u);
    QuotientIs(n * u, u * 1000, k, j * u);
  }

  lemma SplitTimes(k: int, j: int, u: int)
    ensures (k * 1000 + j) * u == k * (u * 1000) + j * u
  {
    Distribute(k * 1000, j, u);
    Distribute(k, 0, u);
  }

  /** A time's path counts the units that have passed. */
  lemma PathOfUnits(cfg: Settings, timebase: Timebase, ts: int)
    requires Unit(timebase) > 0
    ensures
      var p := TimestampToPath(cfg, timebase, ts);
      InRange(p) && UnitsOf(cfg, p) == (ts - cfg.epoch) / Unit(timebase)
      && p.cat1 == (ts - cfg.epoch) / Unit(timebase) / 1000 / 1000 + cfg.offset
  {
    hide Unit;
    var u, t := Unit(timebase), ts - cfg.epoch;
    var n := t / u;
    var k := n / 1000;
    Thousands(n, u);
    Thousands(k, u * 1000);
    Multiples(n % 1000, u);
    Multiples(k % 1000, u * 1000);
    Multiples(k / 1000, u * 1000 * 1000);
    assert t - t % u == n * u;
  }

  lemma Multiples(n: int, u: int)
    requires u > 0
    ensures n * u / u == n
  {
    QuotientIs(n * u, u, n, 0);
  }

  lemma UnitsDetermine(cfg: Settings, p: Path, q: Path)
    requires InRange(p) && InRange(q) && UnitsOf(cfg, p) == UnitsOf(cfg, q)
    ensures p == q
  {
    var x, y := (p.cat1 - cfg.offset) * 1000 + p.cat2, (q.cat1 - cfg.offset) * 1000 + q.cat2;
    assert x * 1000 + p.cat3 == y * 1000 + q.cat3;
    assert x == y && p.cat3 == q.cat3;
  }

  lemma UnitOfTime(u: int, t: int, n: int)
    requires u > 0
    ensures n * u <= t < (n + 1) * u <==> t / u == n
  {
    Distribute(n, 1, u);
    if n * u <= t < (n + 1) * u {
      QuotientIs(t, u, n, t - n * u);
    }
  }

  /** A time is in a path's diff exactly when that is its path. */
  lemma PathIsOfTime(cfg: Settings, timebase: Timebase, ts: int, p: Path)
    requires InRange(p)
    ensures Within(ts, Interval(cfg, timebase, p)) <==> TimestampToPath(cfg, timebase, ts) == p
  {
    StepsAreUnits(timebase);
    hide Interval, TimestampToPath, Unit, UnitsOf;
    IntervalIsUnits(cfg, timebase, p);
    UnitOfTime(Unit(timebase), ts - cfg.epoch, UnitsOf(cfg, p));
    PathOfUnits(cfg, timebase, ts);
    if (ts - cfg.epoch) / Unit(timebase) == UnitsOf(cfg, p) {
      UnitsDetermine(cfg, TimestampToPath(cfg, timebase, ts), p);
    }
  }

  /** Every time has a path: one unit that holds it, from the first page on if it
      is not before the epoch. */
  lemma EveryTimeHasAPath(cfg: Settings, timebase: Timebase, ts: int)
    ensures
      var p := TimestampToPath(cfg, timebase, ts);
      && InRange(p) && Within(ts, Interval(cfg, timebase, p))
      && Interval(cfg, timebase, p).1 - Interval(cfg, timebase, p).0 == Unit(timebase)
      && (cfg.epoch <= ts ==> cfg.offset <= p.cat1)
  {
    StepsAreUnits(timebase);
    hide TimestampToPath, Unit, UnitsOf;
    var p := TimestampToPath(cfg, timebase, ts);
    PathOfUnits(cfg, timebase, ts);
    PathIsOfTime(cfg, timebase, ts, p);
  }

  /** The path after another: after 1000 comes 1 of the next page. */
  function Next(p: Path): Path {
    if p.cat3 < 1000 then p.(cat3 := p.cat3 + 1)
    else if p.cat2 < 999 then Path(p.cat1, p.cat2 + 1, 1)
    else Path(p.cat1 + 1, 0, 1)
  }

  /** The diffs follow on from each other, without a gap or an overlap. */
  lemma DiffsFollowOn(cfg: Settings, timebase: Timebase, p: Path)
    requires InRange(p)
    ensures InRange(Next(p))
    ensures Interval(cfg, timebase, Next(p)).0 == Interval(cfg, timebase, p).1
  {
    IntervalIsUnits(cfg, timebase, p);
    IntervalIsUnits(cfg, timebase, Next(p));
    assert UnitsOf(cfg, Next(p)) == UnitsOf(cfg, p) + 1;
    hide Interval, Unit;
  }

  lemma DiffIs(cfg: Settings, timebase: Timebase, p: Path)
    ensures
      var diff := Interval(cfg, timebase, p);
      && diff.1 == diff.0 + Unit(timebase)
      && (InRange(p) ==> forall ts :: Within(ts, diff) <==> TimestampToPath(cfg, timebase, ts) == p)
      && forall q :: InRange(q) && Next(q) == p ==> Interval(cfg, timebase, q).1 == diff.0
  {
    StepsAreUnits(timebase);
    hide Interval, Unit, Next, TimestampToPath, UnitsOf, Within;
    IntervalIsUnits(cfg, timebase, p);
    Distribute(UnitsOf(cfg, p), 1, Unit(timebase));
    forall ts | InRange(p)
      ensures Within(ts, Interval(cfg, timebase, p)) <==> TimestampToPath(cfg, timebase, ts) == p
    {
      PathIsOfTime(cfg, timebase, ts, p);
    }
    forall q | InRange(q) && Next(q) == p
      ensures Interval(cfg, timebase, q).1 == Interval(cfg, timebase, p).0
    {
      DiffsFollowOn(cfg, timebase, q);
    }
  }

  /** What is read for a path that is not in the future: one unit of time that has
      passed, which begins where the path before ends, and whose times all have
      this path and no other. */
  method DiffOf(cfg: Settings, timebase: Timebase, p: Path, now: int) returns (r: Option<(int, int)>)
    ensures r == if End(cfg, timebase, p) <= now then Some(Interval(cfg, timebase, p)) else None
    ensures r.Some? ==> r.value.1 == r.value.0 + Unit(timebase) && r.value.1 <= now
    ensures Unit(timebase) == if timebase == Minute then 60 else if timebase == Hour then 3600 else 86400
    ensures r.Some? && InRange(p) ==> forall ts :: Within(ts, r.value) <==> TimestampToPath(cfg, timebase, ts) == p
    ensures r.Some? ==> forall q :: InRange(q) && Next(q) == p ==> Interval(cfg, timebase, q).1 == r.value.0
  {
    DiffIs(cfg, timebase, p);
    hide Unit, TimestampToPath, Next;
    var pageStep := PageStep(timebase);
    var pageStep2 := pageStep / 1000;
    var pageStep3 := pageStep2 / 1000;
    var pageStartTimestamp := (p.cat1 - cfg.offset) * pageStep + p.cat2 * pageStep2 + p.cat3 * pageStep3 + cfg.epoch;
    var elapsedInPage := now - pageStartTimestamp;
    if elapsedInPage < 0 {
      return None;
    }
    return Some((pageStartTimestamp - pageStep3, pageStartTimestamp));
  }

  /** The name that the catalogues list a diff by: 000 of the next page instead of 1000. */
  function Listed(p: Path): Path {
    if p.cat3 < 1000 then p
    else if p.cat2 < 999 then Path(p.cat1, p.cat2 + 1, 0)
    else Path(p.cat1 + 1, 0, 0)
  }

  /** The two names are of the same diff. */
  lemma SameDiff(cfg: Settings, timebase: Timebase, p: Path)
    requires InRange(p)
    ensures Interval(cfg, timebase, Listed(p)) == Interval(cfg, timebase, p)
  {
    IntervalIsUnits(cfg, timebase, p);
    IntervalIsUnits(cfg, timebase, Listed(p));
    assert UnitsOf(cfg, Listed(p)) == UnitsOf(cfg, p);
    hide Interval, Unit;
  }

  // ----- Catalogues -----

  /** The numbers in a range, in order. */
  method ListRange(first: int, last: int) returns (out: seq<int>)
    ensures |out| == if first <= last then last - first + 1 else 0
    ensures forall i :: 0 <= i < |out| ==> out[i] == first + i
    ensures forall n :: n in out <==> first <= n <= last
  {
    out := [];
    var i := first;
    while i <= last
      invariant |out| == i - first && (first <= last ==> i <= last + 1) && (first > last ==> i == first)
      invariant forall k :: 0 <= k < |out| ==> out[k] == first + k
      decreases last - i
    {
      out := out + [i];
      i := i + 1;
    }
    forall n | first <= n <= last
      ensures n in out
    {
      assert out[n - first] == n;
    }
  }

  /** The first pages: those that have begun, and the very first even before that. */
  method Catalog(cfg: Settings, timebase: Timebase, now: int) returns (out: seq<int>)
    ensures forall cat1 :: cat1 in out <==>
      cfg.offset <= cat1 && (End(cfg, timebase, Path(cat1, 0, 0)) <= now || cat1 == cfg.offset)
  {
    var elapsed := now - cfg.epoch;
    if elapsed < 0 {
      elapsed := 0;
    }
    StepsAreUnits(timebase);
    hide Unit, End;
    var elapsedUnits := elapsed / Unit(timebase);
    var val1 := elapsedUnits / 1000;
    var val2 := val1 / 1000 + cfg.offset;
    out := ListRange(cfg.offset, val2);
    forall cat1 | cfg.offset <= cat1
      ensures cat1 <= val2 <==> End(cfg, timebase, Path(cat1, 0, 0)) <= now || cat1 == cfg.offset
    {
      PagesElapsed(cfg, timebase, now, cat1);
    }
  }

  /** So many whole groups of units have passed exactly when the last of them has. */
  lemma GroupsElapsed(t: int, u: int, n: int)
    requires u > 0 && 0 <= t
    ensures n <= t / u <==> n * u <= t
    ensures n <= t / u / 1000 <==> n * (u * 1000) <= t
    ensures n <= t / u / 1000 / 1000 <==> n * (u * 1000000) <= t
  {
    AtLeast(t, u, n);
    AtLeast(t, u, n * 1000);
    AtLeast(t, u, n * 1000000);
    Distribute(n, 0, u);
  }

  lemma AtLeast(t: int, u: int, n: int)
    requires u > 0
    ensures n <= t / u <==> n * u <= t
  {
    var q, r := t / u, t % u;
    assert t == q * u + r;
    Distribute(q - n, n, u);
    Distribute(n - q - 1, q + 1, u);
    Distribute(q, 1, u);
    if n <= q {
      assert (q - n) * u >= 0;
    } else {
      assert (n - q - 1) * u >= 0;
    }
  }

  lemma PagesElapsed(cfg: Settings, timebase: Timebase, now: int, cat1: int)
    requires cfg.offset <= cat1 && Unit(timebase) > 0
    ensures
      var elapsed := if now < cfg.epoch then 0 else now - cfg.epoch;
      cat1 - cfg.offset <= elapsed / Unit(timebase) / 1000 / 1000 <==>
      End(cfg, timebase, Path(cat1, 0, 0)) <= now || cat1 == cfg.offset
  {
    StepsAreUnits(timebase);
    hide Unit, PageStep;
    var elapsed := if now < cfg.epoch then 0 else now - cfg.epoch;
    GroupsElapsed(elapsed, Unit(timebase), cat1 - cfg.offset);
    if cfg.offset < cat1 && now < cfg.epoch {
      assert (cat1 - cfg.offset) * (Unit(timebase) * 1000000) > 0;
    }
  }

  /** The pages of a first page that have begun; none is found if it has not. */
  method Catalog2(cfg: Settings, timebase: Timebase, cat1: int, now: int) returns (r: Option<seq<int>>)
    ensures r.None? <==> End(cfg, timebase, Path(cat1, 0, 0)) > now
    ensures r.Some? ==> forall cat2 ::
      cat2 in r.value <==> 0 <= cat2 <= 999 && End(cfg, timebase, Path(cat1, cat2, 0)) <= now
  {
    var pageStartTimestamp := (cat1 - cfg.offset) * PageStep(timebase) + cfg.epoch;
    var elapsedInPage := now - pageStartTimestamp;
    assert pageStartTimestamp == End(cfg, timebase, Path(cat1, 0, 0));
    if elapsedInPage < 0 {
      return None;
    }
    var elapsedInPageUnits := elapsedInPage / Unit(timebase);
    var val1 := elapsedInPageUnits / 1000;
    if val1 > 999 {
      val1 := 999;
    }
    var out := ListRange(0, val1);
    forall cat2 | 0 <= cat2 <= 999
      ensures cat2 <= elapsedInPage / Unit(timebase) / 1000 <==> End(cfg, timebase, Path(cat1, cat2, 0)) <= now
    {
      SubpagesElapsed(cfg, timebase, cat1, cat2, now);
    }
    return Some(out);
  }

  lemma SubpagesElapsed(cfg: Settings, timebase: Timebase, cat1: int, cat2: int, now: int)
    requires End(cfg, timebase, Path(cat1, 0, 0)) <= now && 0 <= cat2 && Unit(timebase) > 0
    ensures cat2 <= (now - End(cfg, timebase, Path(cat1, 0, 0))) / Unit(timebase) / 1000 <==>
      End(cfg, timebase, Path(cat1, cat2, 0)) <= now
  {
    StepsAreUnits(timebase);
    hide Unit, PageStep;
    GroupsElapsed(now - End(cfg, timebase, Path(cat1, 0, 0)), Unit(timebase), cat2);
  }

  /** The diffs of a page that can be read; none is found if the page has not begun. */
  method Catalog3(cfg: Settings, timebase: Timebase, cat1: int, cat2: int, now: int) returns (r: Option<seq<int>>)
    ensures r.None? <==> End(cfg, timebase, Path(cat1, cat2, 0)) > now
    ensures r.Some? ==> forall cat3 ::
      cat3 in r.value <==> 0 <= cat3 <= 999 && End(cfg, timebase, Path(cat1, cat2, cat3)) <= now
  {
    var pageStep := PageStep(timebase);
    var pageStep2 := pageStep / 1000;
    var pageStartTimestamp := (cat1 - cfg.offset) * pageStep + cat2 * pageStep2 + cfg.epoch;
    var elapsedInPage := now - pageStartTimestamp;
    assert pageStartTimestamp == End(cfg, timebase, Path(cat1, cat2, 0));
    if elapsedInPage < 0 {
      return None;
    }
    var val1 := elapsedInPage / Unit(timebase);
    if val1 > 999 {
      val1 := 999;
    }
    var out := ListRange(0, val1);
    forall cat3 | 0 <= cat3 <= 999
      ensures cat3 <= elapsedInPage / Unit(timebase) <==> End(cfg, timebase, Path(cat1, cat2, cat3)) <= now
    {
      DiffsElapsed(cfg, timebase, cat1, cat2, cat3, now);
    }
    return Some(out);
  }

  lemma DiffsElapsed(cfg: Settings, timebase: Timebase, cat1: int, cat2: int, cat3: int, now: int)
    requires End(cfg, timebase, Path(cat1, cat2, 0)) <= now && 0 <= cat3 && Unit(timebase) > 0
    ensures cat3 <= (now - End(cfg, timebase, Path(cat1, cat2, 0))) / Unit(timebase) <==>
      End(cfg, timebase, Path(cat1, cat2, cat3)) <= now
  {
    StepsAreUnits(timebase);
    hide Unit, PageStep;
    GroupsElapsed(now - End(cfg, timebase, Path(cat1, cat2, 0)), Unit(timebase), cat3);
  }

  /** What the three catalogues list between them. */
  predicate InCatalogues(cfg: Settings, timebase: Timebase, p: Path, now: int) {
    && cfg.offset <= p.cat1 && (End(cfg, timebase, Path(p.cat1, 0, 0)) <= now || p.cat1 == cfg.offset)
    && 0 <= p.cat2 <= 999 && End(cfg, timebase, Path(p.cat1, p.cat2, 0)) <= now
    && 0 <= p.cat3 <= 999 && End(cfg, timebase, p) <= now
  }

  /** Every diff since the epoch that can be read is found through the catalogues. */
  lemma CataloguesAreComplete(cfg: Settings, timebase: Timebase, ts: int, now: int)
    requires cfg.epoch <= ts && End(cfg, timebase, TimestampToPath(cfg, timebase, ts)) <= now
    ensures InCatalogues(cfg, timebase, Listed(TimestampToPath(cfg, timebase, ts)), now)
  {
    hide TimestampToPath, End, Within, Unit;
    var p := TimestampToPath(cfg, timebase, ts);
    EveryTimeHasAPath(cfg, timebase, ts);
    SameDiff(cfg, timebase, p);
    EndsInOrder(cfg, timebase, Listed(p));
  }

  lemma EndsInOrder(cfg: Settings, timebase: Timebase, p: Path)
    requires 0 <= p.cat2 && 0 <= p.cat3
    ensures End(cfg, timebase, Path(p.cat1, 0, 0)) <= End(cfg, timebase, Path(p.cat1, p.cat2, 0)) <= End(cfg, timebase, p)
  {
    StepsAreUnits(timebase);
    hide Unit, PageStep;
    assert p.cat2 * (Unit(timebase) * 1000) >= 0 && p.cat3 * Unit(timebase) >= 0;
  }
}
