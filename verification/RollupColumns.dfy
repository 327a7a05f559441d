/** What the numbers of the rollup count, in the names of the log: sums over the lines that count, told line by line. */
module RollupColumns {
  import opened AnalyticsRollup
  import opened LexOrder
  import opened Options

  // ---- Lines that count ----

  predicate HasUsage(l: Line) {
    l.lineType == Some("assistant") && l.message.Some? && l.message.value.usage.Some?
  }

  predicate Dated(l: Line, dateOf: DateOf) {
    l.timestamp.Some? && dateOf(l.timestamp.value).Some?
  }

  function DayOf(l: Line, dateOf: DateOf): string
    requires Dated(l, dateOf)
  {
    dateOf(l.timestamp.value).value
  }

  /** A line counts if it is an assistant line with usage and a date, and no line with usage before it has its id. */
  ghost predicate CountsAt(lines: seq<Line>, i: nat, dateOf: DateOf)
    requires i < |lines|
  {
    && HasUsage(lines[i]) && Dated(lines[i], dateOf)
    && (lines[i].message.value.id == None
        || forall j :: 0 <= j < i && HasUsage(lines[j]) ==> lines[j].message.value.id != lines[i].message.value.id)
  }

  // ---- Sums over them ----

  type Kept = (string, string) -> bool

  /** Over the first lines of a session, those of some dates. */
  ghost function SumLines(
    lines: seq<Line>, n: nat, dateOf: DateOf, project: string, kept: Kept, f: Usage -> nat): nat
    requires n <= |lines|
  {
    if n == 0 then 0
    else
      SumLines(lines, n - 1, dateOf, project, kept, f)
      + if CountsAt(lines, n - 1, dateOf) && kept(DayOf(lines[n - 1], dateOf), project)
        then f(lines[n - 1].message.value.usage.value) else 0
  }

  ghost function SumRows(rows: seq<Row>, dateOf: DateOf, kept: Kept, f: Usage -> nat): nat {
    if rows == [] then 0
    else
      var r := rows[|rows| - 1];
      SumRows(rows[..|rows| - 1], dateOf, kept, f)
      + if r.lines.Some? then SumLines(r.lines.value, |r.lines.value|, dateOf, r.project, kept, f) else 0
  }

  /** The kept dates of a session on which one of its lines counts. */
  ghost function DaysOf(r: Row, dateOf: DateOf, kept: Kept): set<string> {
    if r.lines == None then {}
    else
      set i | 0 <= i < |r.lines.value| && CountsAt(r.lines.value, i, dateOf)
              && kept(DayOf(r.lines.value[i], dateOf), r.project)
        :: DayOf(r.lines.value[i], dateOf)
  }

  ghost function CountDays(rows: seq<Row>, dateOf: DateOf, kept: Kept): nat {
    if rows == [] then 0
    else CountDays(rows[..|rows| - 1], dateOf, kept) + |DaysOf(rows[|rows| - 1], dateOf, kept)|
  }

  function InputOf(u: Usage): nat { if u.input.Some? then u.input.value else 0 }

  function OutputOf(u: Usage): nat { if u.output.Some? then u.output.value else 0 }

  function CacheReadOf(u: Usage): nat { if u.cacheRead.Some? then u.cacheRead.value else 0 }

  function CacheCreationOf(u: Usage): nat { if u.cacheCreation.Some? then u.cacheCreation.value else 0 }

  /** The days from one date to another, both of them included, of one project or of all. */
  function Within(filter: Filter): Kept {
    (date, project) =>
      && (filter.projectId == None || filter.projectId == Some(project))
      && (filter.dateFrom == None || date == filter.dateFrom.value || Below(filter.dateFrom.value, date))
      && (filter.dateTo == None || date == filter.dateTo.value || Below(date, filter.dateTo.value))
  }

  /** The days after one date and up to another. */
  function After(from: string, projectId: Option<string>, to: string): Kept {
    (date, project) =>
      (projectId == None || projectId == Some(project)) && Below(from, date) && (date == to || Below(date, to))
  }

  function OnDay(date: string, projectId: Option<string>): Kept {
    (d, p) => d == date && (projectId == None || projectId == Some(p))
  }

  // ---- They are what the rollup sums ----

  lemma AcceptsWithin(filter: Filter, date: string, project: string)
    ensures filter.Accepts(date, project) <==> Within(filter)(date, project)
  {
    if filter.dateFrom.Some? {
      NotBelow(date, filter.dateFrom.value);
    }
    if filter.dateTo.Some? {
      NotBelow(filter.dateTo.value, date);
    }
  }

  lemma {:induction false} SeenIs(lines: seq<Line>, n: nat, id: string)
    requires n <= |lines|
    ensures id in Seen(lines[..n]) <==>
      exists j :: 0 <= j < n && HasUsage(lines[j]) && lines[j].message.value.id == Some(id)
  {
    if n > 0 {
      SeenIs(lines, n - 1, id);
      assert lines[..n][..n - 1] == lines[..n - 1];
    }
  }

  lemma CountsIsHit(lines: seq<Line>, n: nat, dateOf: DateOf)
    requires n < |lines|
    ensures var l := lines[n];
      CountsAt(lines, n, dateOf) <==> l.Uses() && IsFirst(lines[..n], l) && DateOfLine(l, dateOf).Some?
    ensures Dated(lines[n], dateOf) ==> DateOfLine(lines[n], dateOf) == Some(DayOf(lines[n], dateOf))
  {
    if lines[n].Uses() && lines[n].message.value.id.Some? {
      SeenIs(lines, n, lines[n].message.value.id.value);
    }
  }

  lemma HitsMore(lines: seq<Line>, n: nat, dateOf: DateOf)
    requires n < |lines|
    ensures Hits(lines[..n + 1], dateOf) == Hits(lines[..n], dateOf)
      + if CountsAt(lines, n, dateOf) then [Hit(DayOf(lines[n], dateOf), lines[n].message.value.usage.value)] else []
  {
    hide CountsAt, IsFirst, DateOfLine;
    CountsIsHit(lines, n, dateOf);
    assert lines[..n + 1][..n] == lines[..n];
    CountedHasUsage(lines, n, dateOf);
  }

  lemma CountedHasUsage(lines: seq<Line>, n: nat, dateOf: DateOf)
    requires n < |lines|
    ensures CountsAt(lines, n, dateOf) ==> HasUsage(lines[n]) && Dated(lines[n], dateOf)
  {}

  ghost predicate Selects(filter: Filter, kept: Kept) {
    forall d, p :: filter.Accepts(d, p) <==> kept(d, p)
  }

  ghost predicate Reads(f: Usage -> nat, c: Column) {
    forall u: Usage :: u.Get(c) == f(u)
  }

  lemma OneHitMatches(hits: seq<Hit>, h: Hit, project: string, filter: Filter, c: Column)
    ensures MatchingHits(hits + [h], project, filter, c) ==
      MatchingHits(hits, project, filter, c) + if filter.Accepts(h.date, project) then h.usage.Get(c) else 0
    ensures Dates(hits + [h]) == Dates(hits) + {h.date}
  {
    assert (hits + [h])[..|hits|] == hits;
  }

  // The first n lines, without a hit in the last of them or with it.
  lemma HitsOfMore(lines: seq<Line>, n: nat, dateOf: DateOf)
    requires n < |lines|
    ensures var l, hits := lines[n], Hits(lines[..n], dateOf);
      if CountsAt(lines, n, dateOf)
      then HasUsage(l) && Dated(l, dateOf)
           && Hits(lines[..n + 1], dateOf) == hits + [Hit(DayOf(l, dateOf), l.message.value.usage.value)]
      else Hits(lines[..n + 1], dateOf) == hits
  {
    hide Hits, CountsAt;
    HitsMore(lines, n, dateOf);
    CountedHasUsage(lines, n, dateOf);
    if !CountsAt(lines, n, dateOf) {
      assert Hits(lines[..n], dateOf) + [] == Hits(lines[..n], dateOf);
    }
  }

  // What the filter and the column say about one hit.
  lemma SelectsOne(filter: Filter, kept: Kept, c: Column, f: Usage -> nat, h: Hit, project: string)
    requires Selects(filter, kept) && Reads(f, c)
    ensures (if filter.Accepts(h.date, project) then h.usage.Get(c) else 0) ==
      if kept(h.date, project) then f(h.usage) else 0
  {
    hide Filter.Accepts, Usage.Get;
  }

  // The sum over one line more.
  lemma SumLinesMore(
    lines: seq<Line>, n: nat, dateOf: DateOf, project: string, kept: Kept, f: Usage -> nat, h: Hit)
    requires n < |lines|
    requires CountsAt(lines, n, dateOf) ==> h == Hit(DayOf(lines[n], dateOf), lines[n].message.value.usage.value)
    ensures SumLines(lines, n + 1, dateOf, project, kept, f) == SumLines(lines, n, dateOf, project, kept, f)
      + if CountsAt(lines, n, dateOf) && kept(h.date, project) then f(h.usage) else 0
  {
    hide CountsAt;
  }

  ghost predicate Match(
    lines: seq<Line>, n: nat, dateOf: DateOf, project: string, filter: Filter, kept: Kept, c: Column, f: Usage -> nat)
    requires n <= |lines|
  {
    MatchingHits(Hits(lines[..n], dateOf), project, filter, c) == SumLines(lines, n, dateOf, project, kept, f)
  }

  lemma OneLineMatches(
    lines: seq<Line>, n: nat, dateOf: DateOf, project: string, filter: Filter, kept: Kept, c: Column, f: Usage -> nat)
    requires n < |lines| && Selects(filter, kept) && Reads(f, c)
    requires Match(lines, n, dateOf, project, filter, kept, c, f)
    ensures Match(lines, n + 1, dateOf, project, filter, kept, c, f)
  {
    hide CountsAt, Hits, MatchingHits, SumLines, HasUsage, Dated, DayOf, Selects, Reads;
    HitsOfMore(lines, n, dateOf);
    if CountsAt(lines, n, dateOf) {
      UsageIsThere(lines[n], dateOf);
      var h := Hit(DayOf(lines[n], dateOf), lines[n].message.value.usage.value);
      OneHitMatches(Hits(lines[..n], dateOf), h, project, filter, c);
      SelectsOne(filter, kept, c, f, h, project);
      SumLinesMore(lines, n, dateOf, project, kept, f, h);
    } else {
      SumLinesMore(lines, n, dateOf, project, kept, f, Hit("", Usage(None, None, None, None)));
    }
  }

  lemma {:induction false} LinesMatch(
    lines: seq<Line>, n: nat, dateOf: DateOf, project: string, filter: Filter, kept: Kept, c: Column, f: Usage -> nat)
    requires n <= |lines| && Selects(filter, kept) && Reads(f, c)
    ensures Match(lines, n, dateOf, project, filter, kept, c, f)
  {
    if n == 0 {
      assert lines[..0] == [];
    } else {
      hide Match, Selects, Reads;
      LinesMatch(lines, n - 1, dateOf, project, filter, kept, c, f);
      OneLineMatches(lines, n - 1, dateOf, project, filter, kept, c, f);
    }
  }

  lemma UsageIsThere(l: Line, dateOf: DateOf)
    requires HasUsage(l)
    ensures l.message.Some? && l.message.value.usage.Some?
  {}

  lemma {:induction false} DatesAre(lines: seq<Line>, n: nat, dateOf: DateOf, date: string)
    requires n <= |lines|
    ensures date in Dates(Hits(lines[..n], dateOf)) <==>
      exists i :: 0 <= i < n && CountsAt(lines, i, dateOf) && DayOf(lines[i], dateOf) == date
  {
    if n == 0 {
      assert lines[..0] == [];
    } else {
      hide CountsAt, Hits, Dates, MatchingHits, HasUsage, Dated, DayOf;
      var l, hits := lines[n - 1], Hits(lines[..n - 1], dateOf);
      DatesAre(lines, n - 1, dateOf, date);
      HitsOfMore(lines, n - 1, dateOf);
      if CountsAt(lines, n - 1, dateOf) {
        CountedHasUsage(lines, n - 1, dateOf);
        UsageIsThere(l, dateOf);
        OneHitMatches(hits, Hit(DayOf(l, dateOf), l.message.value.usage.value), "", Everything(), Input);
      }
    }
  }

  lemma DaysAre(r: Row, dateOf: DateOf, filter: Filter, kept: Kept)
    requires Selects(filter, kept)
    ensures MatchingDates(r, dateOf, filter) == DaysOf(r, dateOf, kept)
  {
    hide CountsAt, Filter.Accepts, Dates, Hits;
    if r.lines.Some? {
      var lines := r.lines.value;
      assert lines[..|lines|] == lines;
      forall d ensures d in MatchingDates(r, dateOf, filter) <==> d in DaysOf(r, dateOf, kept) {
        DatesAre(lines, |lines|, dateOf, d);
      }
    } else {
      assert Dates([]) == {} by { NoDates(); }
    }
  }

  lemma NoDates()
    ensures Dates([]) == {}
  {}

  /** What matches a filter is what the lines that count have on the days kept. */
  lemma {:induction false} RowsMatch(
    rows: seq<Row>, dateOf: DateOf, filter: Filter, kept: Kept, c: Column, f: Usage -> nat)
    requires Selects(filter, kept) && Reads(f, c)
    ensures Matching(rows, dateOf, filter, c) == SumRows(rows, dateOf, kept, f)
    ensures MatchingSessions(rows, dateOf, filter) == CountDays(rows, dateOf, kept)
  {
    hide Selects, Reads, MatchingHits, SumLines, MatchingDates, DaysOf, Hits;
    if rows != [] {
      var r := rows[|rows| - 1];
      RowsMatch(rows[..|rows| - 1], dateOf, filter, kept, c, f);
      DaysAre(r, dateOf, filter, kept);
      if r.lines.Some? {
        LinesMatch(r.lines.value, |r.lines.value|, dateOf, r.project, filter, kept, c, f);
        assert r.lines.value[..|r.lines.value|] == r.lines.value;
      } else {
        NoHits(r.project, filter, c);
      }
    }
  }

  lemma NoHits(project: string, filter: Filter, c: Column)
    ensures MatchingHits([], project, filter, c) == 0
  {}

  lemma WithinSelects(filter: Filter)
    ensures Selects(filter, Within(filter))
  {
    forall d, p {
      AcceptsWithin(filter, d, p);
    }
  }

  lemma ColumnsRead()
    ensures Reads(InputOf, Input) && Reads(OutputOf, Output)
    ensures Reads(CacheReadOf, CacheRead) && Reads(CacheCreationOf, CacheCreation)
  {}

  // ---- One bucket ----

  lemma {:induction false} BucketIsDay(rows: seq<Row>, dateOf: DateOf, date: string, project: string, c: Column)
    ensures BucketSum(rows, dateOf, date, project, c) ==
      Matching(rows, dateOf, Filter(Some(project), Some(date), Some(date)), c)
    ensures SessionCount(rows, dateOf, date, project) ==
      MatchingSessions(rows, dateOf, Filter(Some(project), Some(date), Some(date)))
  {
    var day := Filter(Some(project), Some(date), Some(date));
    hide DateSum, MatchingHits, HitsOf, Filter.Accepts, Dates;
    if rows != [] {
      var r := rows[|rows| - 1];
      BucketIsDay(rows[..|rows| - 1], dateOf, date, project, c);
      DayOfHits(HitsOf(r, dateOf), r.project, date, project, c);
      forall d {
        AcceptsDay(d, r.project, date, project);
      }
      assert MatchingDates(r, dateOf, day) == if Touches(r, dateOf, date, project) then {date} else {};
    }
  }

  lemma AcceptsDay(d: string, p: string, date: string, project: string)
    ensures Filter(Some(project), Some(date), Some(date)).Accepts(d, p) <==> d == date && p == project
  {
    NotBelow(d, date);
    if Below(d, date) {
      Asymmetric(d, date);
    }
    Irreflexive(date);
  }

  lemma {:induction false} DayOfHits(hits: seq<Hit>, p: string, date: string, project: string, c: Column)
    ensures MatchingHits(hits, p, Filter(Some(project), Some(date), Some(date)), c) ==
      if p == project then DateSum(hits, date, c) else 0
  {
    hide Filter.Accepts, Usage.Get;
    if hits != [] {
      DayOfHits(hits[..|hits| - 1], p, date, project, c);
      AcceptsDay(hits[|hits| - 1].date, p, date, project);
    }
  }

  /** Every bucket holds, name by name, the tokens of the lines that count on its day in its project, and the number of
    * sessions with such a line. */
  lemma BucketsByName(m: Rollup, rows: seq<Row>, dateOf: DateOf, date: string, project: string)
    requires IsRollup(m, rows, dateOf)
    ensures var day := OnDay(date, Some(project));
      && ((date, project) in m <==> CountDays(rows, dateOf, day) > 0)
      && ((date, project) in m ==>
            var b := m[(date, project)];
            && b.date == date && b.project == project
            && b.input == SumRows(rows, dateOf, day, InputOf) && b.output == SumRows(rows, dateOf, day, OutputOf)
            && b.cacheRead == SumRows(rows, dateOf, day, CacheReadOf)
            && b.cacheCreation == SumRows(rows, dateOf, day, CacheCreationOf)
            && b.sessions == CountDays(rows, dateOf, day))
  {
    var filter, day := Filter(Some(project), Some(date), Some(date)), OnDay(date, Some(project));
    assert Selects(filter, day) by {
      forall d, p {
        AcceptsDay(d, p, date, project);
      }
    }
    BucketReads(m, rows, dateOf, date, project, filter, day, Input, InputOf);
    BucketReads(m, rows, dateOf, date, project, filter, day, Output, OutputOf);
    BucketReads(m, rows, dateOf, date, project, filter, day, CacheRead, CacheReadOf);
    BucketReads(m, rows, dateOf, date, project, filter, day, CacheCreation, CacheCreationOf);
  }

  lemma BucketReads(
    m: Rollup, rows: seq<Row>, dateOf: DateOf, date: string, project: string, filter: Filter, day: Kept, c: Column,
    f: Usage -> nat)
    requires IsRollup(m, rows, dateOf) && filter == Filter(Some(project), Some(date), Some(date))
    requires Selects(filter, day) && Reads(f, c)
    ensures Reading(m, date, project, c) == SumRows(rows, dateOf, day, f)
    ensures Sessions(m, date, project) == CountDays(rows, dateOf, day)
  {
    hide Selects, Reads, BucketSum, SessionCount, SumRows, CountDays, Matching, MatchingSessions;
    BucketIsDay(rows, dateOf, date, project, c);
    RowsMatch(rows, dateOf, filter, day, c, f);
  }

  // ---- The number of buckets ----

  lemma {:induction false} KeysOf(bs: seq<Bucket>, keys: set<(string, string)>)
    requires Separate(bs)
    requires forall d, p :: (d, p) in keys <==> exists i :: 0 <= i < |bs| && bs[i].date == d && bs[i].project == p
    ensures |keys| == |bs|
  {
    if bs == [] {
      forall key: (string, string) ensures key !in keys {
        assert key == (key.0, key.1);
      }
      assert keys == {};
    } else {
      var n := |bs| - 1;
      var last := (bs[n].date, bs[n].project);
      assert last in keys;
      forall d, p
        ensures (d, p) in keys - {last} <==> exists i :: 0 <= i < n && bs[..n][i].date == d && bs[..n][i].project == p
      {
        if i :| 0 <= i < |bs| && bs[i].date == d && bs[i].project == p && (d, p) != last {
          assert bs[..n][i] == bs[i];
        }
      }
      KeysOf(bs[..n], keys - {last});
    }
  }

  lemma SizeOfAnswer(bs: seq<Bucket>, m: Rollup, filter: Filter)
    requires Labelled(m) && Answers(bs, m, filter)
    ensures |bs| == |set key | key in m && Within(filter)(key.0, key.1)|
  {
    hide Separate, Within, Filter.Accepts;
    WithinSelects(filter);
    var keys := set key | key in m && Within(filter)(key.0, key.1);
    forall d, p ensures (d, p) in keys <==> exists i :: 0 <= i < |bs| && bs[i].date == d && bs[i].project == p {
      if (d, p) in keys {
        assert filter.Accepts(d, p) && m[(d, p)] in bs;
      }
      if i :| 0 <= i < |bs| && bs[i].date == d && bs[i].project == p {
        assert bs[i] in bs;
      }
    }
    KeysOf(bs, keys);
  }

  // ---- Ranges ----

  lemma {:induction false} SumsAdd(
    rows: seq<Row>, dateOf: DateOf, all: Kept, some: Kept, others: Kept, f: Usage -> nat)
    requires forall d, p :: (all(d, p) <==> some(d, p) || others(d, p)) && !(some(d, p) && others(d, p))
    ensures SumRows(rows, dateOf, all, f) == SumRows(rows, dateOf, some, f) + SumRows(rows, dateOf, others, f)
    ensures CountDays(rows, dateOf, all) == CountDays(rows, dateOf, some) + CountDays(rows, dateOf, others)
  {
    hide SumLines, DaysOf;
    if rows != [] {
      var r := rows[|rows| - 1];
      SumsAdd(rows[..|rows| - 1], dateOf, all, some, others, f);
      if r.lines.Some? {
        LinesAdd(r.lines.value, |r.lines.value|, dateOf, r.project, all, some, others, f);
      }
      DaysAdd(r, dateOf, all, some, others);
    }
  }

  lemma {:induction false} LinesAdd(
    lines: seq<Line>, n: nat, dateOf: DateOf, project: string, all: Kept, some: Kept, others: Kept, f: Usage -> nat)
    requires n <= |lines|
    requires forall d, p :: (all(d, p) <==> some(d, p) || others(d, p)) && !(some(d, p) && others(d, p))
    ensures SumLines(lines, n, dateOf, project, all, f) ==
      SumLines(lines, n, dateOf, project, some, f) + SumLines(lines, n, dateOf, project, others, f)
  {
    if n > 0 {
      LinesAdd(lines, n - 1, dateOf, project, all, some, others, f);
    }
  }

  lemma DaysAdd(r: Row, dateOf: DateOf, all: Kept, some: Kept, others: Kept)
    requires forall d, p :: (all(d, p) <==> some(d, p) || others(d, p)) && !(some(d, p) && others(d, p))
    ensures |DaysOf(r, dateOf, all)| == |DaysOf(r, dateOf, some)| + |DaysOf(r, dateOf, others)|
  {
    var a, b := DaysOf(r, dateOf, some), DaysOf(r, dateOf, others);
    assert DaysOf(r, dateOf, all) == a + b;
    assert a !! b;
  }

  /** A range that ends later adds exactly the days in between. */
  lemma RangesAddUp(
    rows: seq<Row>, dateOf: DateOf, projectId: Option<string>, from: string, mid: string, to: string, f: Usage -> nat)
    requires (from == mid || Below(from, mid)) && (mid == to || Below(mid, to))
    ensures var whole, start := Within(Filter(projectId, Some(from), Some(to))),
                Within(Filter(projectId, Some(from), Some(mid)));
      && SumRows(rows, dateOf, whole, f) ==
        SumRows(rows, dateOf, start, f) + SumRows(rows, dateOf, After(mid, projectId, to), f)
      && CountDays(rows, dateOf, whole) ==
        CountDays(rows, dateOf, start) + CountDays(rows, dateOf, After(mid, projectId, to))
  {
    var whole := Within(Filter(projectId, Some(from), Some(to)));
    var start := Within(Filter(projectId, Some(from), Some(mid)));
    forall d, p
      ensures whole(d, p) <==> start(d, p) || After(mid, projectId, to)(d, p)
      ensures !(start(d, p) && After(mid, projectId, to)(d, p))
    {
      RangeSplits(from, mid, to, d);
    }
    SumsAdd(rows, dateOf, whole, start, After(mid, projectId, to), f);
  }

  predicate UpTo(a: string, b: string) {
    a == b || Below(a, b)
  }

  lemma RangeSplits(from: string, mid: string, to: string, d: string)
    requires UpTo(from, mid) && UpTo(mid, to)
    ensures UpTo(from, d) && UpTo(d, to) <==> (UpTo(from, d) && UpTo(d, mid)) || (Below(mid, d) && UpTo(d, to))
    ensures !(UpTo(d, mid) && Below(mid, d))
  {
    NotBelow(mid, d);
    if UpTo(d, mid) {
      UpToTransitive(d, mid, to);
    } else {
      UpToTransitive(from, mid, d);
    }
    Irreflexive(mid);
  }

  lemma UpToTransitive(a: string, b: string, c: string)
    requires UpTo(a, b) && UpTo(b, c)
    ensures UpTo(a, c)
  {
    if a != b && b != c {
      Transitive(a, b, c);
    }
  }

  /** A range of one day is what counts on that day. */
  lemma RangeOfOneDay(rows: seq<Row>, dateOf: DateOf, projectId: Option<string>, date: string, f: Usage -> nat)
    ensures var day := Within(Filter(projectId, Some(date), Some(date)));
      && SumRows(rows, dateOf, day, f) == SumRows(rows, dateOf, OnDay(date, projectId), f)
      && CountDays(rows, dateOf, day) == CountDays(rows, dateOf, OnDay(date, projectId))
  {
    var day := Within(Filter(projectId, Some(date), Some(date)));
    forall d, p ensures day(d, p) <==> OnDay(date, projectId)(d, p) {
      NotBelow(d, date);
    }
    SumsAdd(rows, dateOf, day, OnDay(date, projectId), Nothing(), f);
    NothingKept(rows, dateOf, f);
  }

  function Nothing(): Kept {
    (date, project) => false
  }

  lemma {:induction false} NothingKept(rows: seq<Row>, dateOf: DateOf, f: Usage -> nat)
    ensures SumRows(rows, dateOf, Nothing(), f) == 0 && CountDays(rows, dateOf, Nothing()) == 0
  {
    if rows != [] {
      var r := rows[|rows| - 1];
      NothingKept(rows[..|rows| - 1], dateOf, f);
      if r.lines.Some? {
        NoLineKept(r.lines.value, |r.lines.value|, dateOf, r.project, f);
      }
      assert DaysOf(r, dateOf, Nothing()) == {};
    }
  }

  lemma {:induction false} NoLineKept(lines: seq<Line>, n: nat, dateOf: DateOf, project: string, f: Usage -> nat)
    requires n <= |lines|
    ensures SumLines(lines, n, dateOf, project, Nothing(), f) == 0
  {
    if n > 0 {
      NoLineKept(lines, n - 1, dateOf, project, f);
    }
  }
}
