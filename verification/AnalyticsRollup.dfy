/** Token counts per date and project, rebuilt from all sessions. Within a session the first line of a message counts.
  * `dateOf` (the date of a time stamp, if it parses) is a parameter. */
module AnalyticsRollup {
  import opened LexOrder
  import opened Options
  import opened Permutations
  import opened Traversal

  // ---- Sessions ----

  datatype Column = Input | Output | CacheRead | CacheCreation

  datatype Usage = Usage(input: Option<nat>, output: Option<nat>, cacheRead: Option<nat>, cacheCreation: Option<nat>) {
    function Get(c: Column): nat {
      match c
      case Input => input.GetOr(0)
      case Output => output.GetOr(0)
      case CacheRead => cacheRead.GetOr(0)
      case CacheCreation => cacheCreation.GetOr(0)
    }
  }

  datatype Message = Message(id: Option<string>, usage: Option<Usage>)

  datatype Line = Line(lineType: Option<string>, timestamp: Option<string>, message: Option<Message>) {
    predicate Uses() {
      lineType == Some("assistant") && message.Some? && message.value.usage.Some?
    }
  }

  /** A session of the catalog; its lines are missing if its file cannot be read. */
  datatype Row = Row(project: string, lines: Option<seq<Line>>)

  type DateOf = string -> Option<string>

  // ---- What counts ----

  /** The ids of the lines with usage. */
  function Seen(lines: seq<Line>): set<string> {
    if lines == [] then {}
    else
      var l := lines[|lines| - 1];
      Seen(lines[..|lines| - 1]) + if l.Uses() && l.message.value.id.Some? then {l.message.value.id.value} else {}
  }

  datatype Hit = Hit(date: string, usage: Usage)

  predicate IsFirst(before: seq<Line>, l: Line)
    requires l.Uses()
  {
    l.message.value.id.Some? ==> l.message.value.id.value !in Seen(before)
  }

  function DateOfLine(l: Line, dateOf: DateOf): Option<string> {
    if l.timestamp.Some? then dateOf(l.timestamp.value) else None
  }

  /** The lines that count, each with its date: the first with usage of every id, if it has a date. */
  function Hits(lines: seq<Line>, dateOf: DateOf): seq<Hit> {
    if lines == [] then []
    else
      var before, l := lines[..|lines| - 1], lines[|lines| - 1];
      var rest := Hits(before, dateOf);
      if l.Uses() && IsFirst(before, l) && DateOfLine(l, dateOf).Some?
      then rest + [Hit(DateOfLine(l, dateOf).value, l.message.value.usage.value)]
      else rest
  }

  function HitsOf(r: Row, dateOf: DateOf): seq<Hit> {
    if r.lines.Some? then Hits(r.lines.value, dateOf) else []
  }

  function DateSum(hits: seq<Hit>, date: string, c: Column): nat {
    if hits == [] then 0
    else
      var h := hits[|hits| - 1];
      DateSum(hits[..|hits| - 1], date, c) + if h.date == date then h.usage.Get(c) else 0
  }

  function Dates(hits: seq<Hit>): set<string> {
    if hits == [] then {} else Dates(hits[..|hits| - 1]) + {hits[|hits| - 1].date}
  }

  // ---- What a bucket should hold ----

  function RowSum(r: Row, dateOf: DateOf, date: string, project: string, c: Column): nat {
    if r.project == project then DateSum(HitsOf(r, dateOf), date, c) else 0
  }

  predicate Touches(r: Row, dateOf: DateOf, date: string, project: string) {
    r.project == project && date in Dates(HitsOf(r, dateOf))
  }

  function BucketSum(rows: seq<Row>, dateOf: DateOf, date: string, project: string, c: Column): nat {
    if rows == [] then 0
    else
      BucketSum(rows[..|rows| - 1], dateOf, date, project, c) + RowSum(rows[|rows| - 1], dateOf, date, project, c)
  }

  /** The number of sessions of a project with a line that counts on a date. */
  function SessionCount(rows: seq<Row>, dateOf: DateOf, date: string, project: string): nat {
    if rows == [] then 0
    else
      SessionCount(rows[..|rows| - 1], dateOf, date, project)
      + if Touches(rows[|rows| - 1], dateOf, date, project) then 1 else 0
  }

  // ---- The map of buckets ----

  datatype Bucket = Bucket(
    date: string, project: string, input: nat, output: nat, cacheRead: nat, cacheCreation: nat, sessions: nat)
  {
    function Get(c: Column): nat {
      match c
      case Input => input
      case Output => output
      case CacheRead => cacheRead
      case CacheCreation => cacheCreation
    }
  }

  type Rollup = map<(string, string), Bucket>

  function Reading(m: Rollup, date: string, project: string, c: Column): nat {
    if (date, project) in m then m[(date, project)].Get(c) else 0
  }

  function Sessions(m: Rollup, date: string, project: string): nat {
    if (date, project) in m then m[(date, project)].sessions else 0
  }

  ghost predicate Labelled(m: Rollup) {
    forall d, p :: (d, p) in m ==> m[(d, p)].date == d && m[(d, p)].project == p
  }

  /** Every bucket carries its date and project, and holds what counts under them; there is one exactly if a session
    * counts there. */
  ghost predicate IsRollup(m: Rollup, rows: seq<Row>, dateOf: DateOf) {
    && Labelled(m)
    && (forall d, p, c :: Reading(m, d, p, c) == BucketSum(rows, dateOf, d, p, c))
    && (forall d, p :: Sessions(m, d, p) == SessionCount(rows, dateOf, d, p))
    && (forall d, p :: (d, p) in m <==> SessionCount(rows, dateOf, d, p) > 0)
  }

  function Accumulate(m: Rollup, h: Hit, project: string): Rollup {
    var key := (h.date, project);
    var b := if key in m then m[key] else Bucket(h.date, project, 0, 0, 0, 0, 0);
    m[key := b.(
      input := b.input + h.usage.Get(Input), output := b.output + h.usage.Get(Output),
      cacheRead := b.cacheRead + h.usage.Get(CacheRead),
      cacheCreation := b.cacheCreation + h.usage.Get(CacheCreation))]
  }

  /** Some lines of a session have been added to the buckets, but the session is not counted yet. */
  ghost predicate Added(before: Rollup, m: Rollup, project: string, hits: seq<Hit>) {
    && Labelled(m)
    && (forall d, p, c ::
          Reading(m, d, p, c) == Reading(before, d, p, c) + if p == project then DateSum(hits, d, c) else 0)
    && (forall d, p :: Sessions(m, d, p) == Sessions(before, d, p))
    && (forall d, p :: (d, p) in m <==> (d, p) in before || (p == project && d in Dates(hits)))
  }

  /** A session has been added to the buckets. */
  ghost predicate Applied(before: Rollup, m: Rollup, row: Row, dateOf: DateOf) {
    && Labelled(m)
    && (forall d, p, c :: Reading(m, d, p, c) == Reading(before, d, p, c) + RowSum(row, dateOf, d, p, c))
    && (forall d, p :: Sessions(m, d, p) == Sessions(before, d, p) + if Touches(row, dateOf, d, p) then 1 else 0)
    && (forall d, p :: (d, p) in m <==> (d, p) in before || Touches(row, dateOf, d, p))
  }

  lemma AddedMore(before: Rollup, m: Rollup, project: string, hits: seq<Hit>, h: Hit)
    requires Added(before, m, project, hits)
    ensures Added(before, Accumulate(m, h, project), project, hits + [h])
  {
    var r := Accumulate(m, h, project);
    assert (hits + [h])[..|hits|] == hits;
    forall d, p, c
      ensures Reading(r, d, p, c) == Reading(before, d, p, c) + if p == project then DateSum(hits + [h], d, c) else 0
    {
      assert Reading(m, d, p, c) == Reading(before, d, p, c) + if p == project then DateSum(hits, d, c) else 0;
    }
    forall d, p ensures Sessions(r, d, p) == Sessions(before, d, p) {
      assert Sessions(m, d, p) == Sessions(before, d, p);
    }
  }

  lemma AddedNothing(before: Rollup, project: string)
    requires Labelled(before)
    ensures Added(before, before, project, []) && Dates([]) == {}
  {
    forall d, c ensures DateSum([], d, c) == 0 {}
    assert Dates([]) == {};
  }

  lemma AddedKeys(before: Rollup, m: Rollup, project: string, hits: seq<Hit>, date: string)
    requires Added(before, m, project, hits) && date in Dates(hits)
    ensures (date, project) in m
  {}

  /** Some of the dates of a session have had it counted. */
  ghost predicate Marked(before: Rollup, m: Rollup, project: string, dates: set<string>) {
    && before.Keys == m.Keys
    && (forall d, p :: (d, p) in m ==>
          m[(d, p)] == before[(d, p)].(
            sessions := before[(d, p)].sessions + if p == project && d in dates then 1 else 0))
  }

  lemma MarkedNothing(m: Rollup, project: string)
    ensures Marked(m, m, project, {})
  {}

  lemma MarkedKeys(before: Rollup, m: Rollup, project: string, dates: set<string>, date: string)
    requires Marked(before, m, project, dates)
    ensures (date, project) in before <==> (date, project) in m
  {}

  function OneSessionMore(m: Rollup, key: (string, string)): Rollup
    requires key in m
  {
    m[key := m[key].(sessions := m[key].sessions + 1)]
  }

  lemma MarkedMore(before: Rollup, m: Rollup, project: string, dates: set<string>, date: string)
    requires Marked(before, m, project, dates) && date !in dates && (date, project) in m
    ensures Marked(before, OneSessionMore(m, (date, project)), project, dates + {date})
  {}

  lemma AddedAndMarked(before: Rollup, added: Rollup, m: Rollup, row: Row, dateOf: DateOf)
    requires Added(before, added, row.project, HitsOf(row, dateOf))
    requires Marked(added, m, row.project, Dates(HitsOf(row, dateOf)))
    ensures Applied(before, m, row, dateOf)
  {
    var hits := HitsOf(row, dateOf);
    forall d, p, c
      ensures Reading(m, d, p, c) == Reading(added, d, p, c)
      ensures Sessions(m, d, p) == Sessions(added, d, p) + if Touches(row, dateOf, d, p) then 1 else 0
    {
      if p == row.project && d in Dates(hits) {
        AddedKeys(before, added, p, hits, d);
      }
    }
  }

  /** Add the lines that count to the buckets of their dates. */
  method AddLines(lines: seq<Line>, project: string, before: Rollup, dateOf: DateOf)
    returns (rollup: Rollup, datesTouched: set<string>)
    requires Labelled(before)
    ensures Added(before, rollup, project, Hits(lines, dateOf))
    ensures datesTouched == Dates(Hits(lines, dateOf))
  {
    hide Added, Accumulate, Labelled;
    rollup := before;
    var seenMsgIds: set<string> := {};
    datesTouched := {};
    AddedNothing(before, project);
    for i := 0 to |lines|
      invariant seenMsgIds == Seen(lines[..i])
      invariant datesTouched == Dates(Hits(lines[..i], dateOf))
      invariant Added(before, rollup, project, Hits(lines[..i], dateOf))
    {
      assert lines[..i + 1][..i] == lines[..i];
      if !lines[i].Uses() {
        continue;
      }
      var message := lines[i].message.value;
      if message.id.Some? {
        if message.id.value in seenMsgIds {
          continue;
        }
        seenMsgIds := seenMsgIds + {message.id.value};
      }
      if lines[i].timestamp == None || dateOf(lines[i].timestamp.value) == None {
        continue;
      }
      var h := Hit(dateOf(lines[i].timestamp.value).value, message.usage.value);
      AddedMore(before, rollup, project, Hits(lines[..i], dateOf), h);
      rollup := Accumulate(rollup, h, project);
      datesTouched := datesTouched + {h.date};
    }
    assert lines[..|lines|] == lines;
  }

  /** Count the session once in the bucket of every date it touched, in any order. */
  method CountSession(datesTouched: set<string>, project: string, added: Rollup) returns (rollup: Rollup)
    requires forall d :: d in datesTouched ==> (d, project) in added
    ensures Marked(added, rollup, project, datesTouched)
  {
    hide Marked, OneSessionMore;
    rollup := added;
    MarkedNothing(added, project);
    var rest := datesTouched;
    ghost var done: set<string> := {};
    while rest != {}
      invariant Visiting(rest, done, datesTouched)
      invariant Marked(added, rollup, project, done)
      decreases rest
    {
      hide Visiting;
      var date :| date in rest;
      VisitOne(rest, done, datesTouched, date);
      var key := (date, project);
      MarkedKeys(added, rollup, project, done, date);
      if key in rollup {
        MarkedMore(added, rollup, project, done, date);
        rollup := OneSessionMore(rollup, key);
      }
      rest, done := rest - {date}, done + {date};
    }
    assert done == datesTouched;
  }

  method ApplySession(row: Row, before: Rollup, dateOf: DateOf) returns (rollup: Rollup)
    requires Labelled(before)
    ensures Applied(before, rollup, row, dateOf)
  {
    hide Added, Marked, Applied, Labelled;
    if row.lines == None {
      AddedNothing(before, row.project);
      MarkedNothing(before, row.project);
      AddedAndMarked(before, before, before, row, dateOf);
      return before;
    }
    var added, datesTouched := AddLines(row.lines.value, row.project, before, dateOf);
    forall d | d in datesTouched ensures (d, row.project) in added {
      AddedKeys(before, added, row.project, Hits(row.lines.value, dateOf), d);
    }
    rollup := CountSession(datesTouched, row.project, added);
    AddedAndMarked(before, added, rollup, row, dateOf);
  }

  // ---- Rebuilding ----

  lemma {:induction false} AppliedMore(before: Rollup, m: Rollup, rows: seq<Row>, row: Row, dateOf: DateOf)
    requires IsRollup(before, rows, dateOf) && Applied(before, m, row, dateOf)
    ensures IsRollup(m, rows + [row], dateOf)
  {
    hide Reading, Sessions, RowSum, Touches, Labelled;
    assert (rows + [row])[..|rows|] == rows;
  }

  lemma EmptyRollup(dateOf: DateOf)
    ensures IsRollup(map[], [], dateOf)
  {}

  method RebuildAll(rows: seq<Row>, dateOf: DateOf) returns (rollup: Rollup)
    ensures IsRollup(rollup, rows, dateOf)
  {
    hide IsRollup, Applied;
    rollup := map[];
    EmptyRollup(dateOf);
    for i := 0 to |rows|
      invariant IsRollup(rollup, rows[..i], dateOf)
    {
      ghost var before := rollup;
      IsLabelled(before, rows[..i], dateOf);
      rollup := ApplySession(rows[i], rollup, dateOf);
      AppliedMore(before, rollup, rows[..i], rows[i], dateOf);
      assert rows[..i + 1] == rows[..i] + [rows[i]];
    }
    assert rows[..|rows|] == rows;
  }

  lemma IsLabelled(m: Rollup, rows: seq<Row>, dateOf: DateOf)
    requires IsRollup(m, rows, dateOf)
    ensures Labelled(m)
  {}

  // ---- The buckets do not depend on the order of the rows ----

  lemma {:induction false} BucketSumConcat(
    xs: seq<Row>, ys: seq<Row>, dateOf: DateOf, date: string, project: string, c: Column)
    ensures BucketSum(xs + ys, dateOf, date, project, c) ==
      BucketSum(xs, dateOf, date, project, c) + BucketSum(ys, dateOf, date, project, c)
    ensures SessionCount(xs + ys, dateOf, date, project) ==
      SessionCount(xs, dateOf, date, project) + SessionCount(ys, dateOf, date, project)
  {
    hide RowSum, Touches;
    if ys == [] {
      assert xs + ys == xs;
    } else {
      assert (xs + ys)[..|xs + ys| - 1] == xs + ys[..|ys| - 1];
      BucketSumConcat(xs, ys[..|ys| - 1], dateOf, date, project, c);
    }
  }

  lemma {:induction false} BucketSumOfPermutation(
    xs: seq<Row>, ys: seq<Row>, dateOf: DateOf, date: string, project: string, c: Column)
    requires multiset(xs) == multiset(ys)
    ensures BucketSum(xs, dateOf, date, project, c) == BucketSum(ys, dateOf, date, project, c)
    ensures SessionCount(xs, dateOf, date, project) == SessionCount(ys, dateOf, date, project)
  {
    hide RowSum, Touches;
    if xs == [] {
      assert |multiset(ys)| == 0;
    } else {
      var n := |xs| - 1;
      var i := Counterpart(xs, ys);
      var before, after := ys[..i], ys[i + 1..];
      BucketSumOfPermutation(xs[..n], before + after, dateOf, date, project, c);
      assert ys == before + [ys[i]] + after;
      BucketSumConcat(before + [ys[i]], after, dateOf, date, project, c);
      BucketSumConcat(before, after, dateOf, date, project, c);
      assert (before + [ys[i]])[..i] == before;
    }
  }

  /** A rollup of the catalog's rows is one of the same rows in any other order, and there is only one. */
  lemma RowOrderDoesNotMatter(a: Rollup, b: Rollup, xs: seq<Row>, ys: seq<Row>, dateOf: DateOf)
    requires multiset(xs) == multiset(ys) && IsRollup(a, xs, dateOf) && IsRollup(b, ys, dateOf)
    ensures a == b
  {
    hide BucketSum, SessionCount;
    forall key: (string, string)
      ensures key in a <==> key in b
      ensures key in a ==> a[key] == b[key]
    {
      SameBucket(a, b, xs, ys, dateOf, key.0, key.1);
      assert key == (key.0, key.1);
    }
  }

  lemma SameBucket(
    a: Rollup, b: Rollup, xs: seq<Row>, ys: seq<Row>, dateOf: DateOf, d: string, p: string)
    requires multiset(xs) == multiset(ys) && IsRollup(a, xs, dateOf) && IsRollup(b, ys, dateOf)
    ensures (d, p) in a <==> (d, p) in b
    ensures (d, p) in a ==> a[(d, p)] == b[(d, p)]
  {
    hide BucketSum, SessionCount;
    forall c ensures Reading(a, d, p, c) == Reading(b, d, p, c) && Sessions(a, d, p) == Sessions(b, d, p) {
      BucketSumOfPermutation(xs, ys, dateOf, d, p, c);
    }
    BucketSumOfPermutation(xs, ys, dateOf, d, p, Input);
    assert Reading(a, d, p, Input) == Reading(b, d, p, Input) && Reading(a, d, p, Output) == Reading(b, d, p, Output);
    assert Reading(a, d, p, CacheRead) == Reading(b, d, p, CacheRead);
    assert Reading(a, d, p, CacheCreation) == Reading(b, d, p, CacheCreation);
  }

  // ---- Queries ----

  datatype Filter = Filter(projectId: Option<string>, dateFrom: Option<string>, dateTo: Option<string>) {
    predicate Accepts(date: string, project: string) {
      && (projectId.Some? ==> project == projectId.value)
      && (dateFrom.Some? ==> !Below(date, dateFrom.value))
      && (dateTo.Some? ==> !Below(dateTo.value, date))
    }
  }

  predicate InOrder(a: Bucket, b: Bucket) {
    Below(a.date, b.date) || (a.date == b.date && Below(a.project, b.project))
  }

  predicate StrictlySorted(bs: seq<Bucket>) {
    forall i, j :: 0 <= i < j < |bs| ==> InOrder(bs[i], bs[j])
  }

  lemma InOrderTotal(a: Bucket, b: Bucket)
    requires (a.date, a.project) != (b.date, b.project)
    ensures InOrder(a, b) || InOrder(b, a)
  {
    Total(a.date, b.date);
    Total(a.project, b.project);
  }

  lemma InOrderTransitive(a: Bucket, b: Bucket, c: Bucket)
    requires InOrder(a, b) && InOrder(b, c)
    ensures InOrder(a, c)
  {
    if Below(a.date, b.date) && Below(b.date, c.date) {
      Transitive(a.date, b.date, c.date);
    } else if a.date == b.date && b.date == c.date {
      Transitive(a.project, b.project, c.project);
    }
  }

  function Insert(bs: seq<Bucket>, b: Bucket): seq<Bucket> {
    if bs == [] || InOrder(bs[|bs| - 1], b) then bs + [b]
    else Insert(bs[..|bs| - 1], b) + [bs[|bs| - 1]]
  }

  function Sort(bs: seq<Bucket>): seq<Bucket> {
    if bs == [] then [] else Insert(Sort(bs[..|bs| - 1]), bs[|bs| - 1])
  }

  lemma {:induction false} InsertKeeps(bs: seq<Bucket>, b: Bucket, x: Bucket)
    ensures x in Insert(bs, b) <==> x in bs || x == b
    ensures |Insert(bs, b)| == |bs| + 1
  {
    if bs != [] && !InOrder(bs[|bs| - 1], b) {
      InsertKeeps(bs[..|bs| - 1], b, x);
      assert bs == bs[..|bs| - 1] + [bs[|bs| - 1]];
    }
  }

  // No bucket of a list is for a date and a project.
  predicate Absent(bs: seq<Bucket>, date: string, project: string) {
    forall i :: 0 <= i < |bs| ==> (bs[i].date, bs[i].project) != (date, project)
  }

  lemma {:induction false} InsertSorts(bs: seq<Bucket>, b: Bucket)
    requires StrictlySorted(bs) && Absent(bs, b.date, b.project)
    ensures StrictlySorted(Insert(bs, b))
  {
    hide InOrder;
    if bs == [] {
    } else if InOrder(bs[|bs| - 1], b) {
      forall i | 0 <= i < |bs| ensures InOrder(bs[i], b) {
        if i < |bs| - 1 {
          InOrderTransitive(bs[i], bs[|bs| - 1], b);
        }
      }
    } else {
      var prefix, last := bs[..|bs| - 1], bs[|bs| - 1];
      InsertSorts(prefix, b);
      InOrderTotal(last, b);
      var r := Insert(prefix, b);
      forall i | 0 <= i < |r| ensures InOrder(r[i], last) {
        InsertKeeps(prefix, b, r[i]);
        assert r[i] in r;
        if r[i] != b {
          var k :| 0 <= k < |prefix| && prefix[k] == r[i];
          assert bs[k] == r[i];
        }
      }
    }
  }

  /** No two buckets of a list share date and project. */
  predicate Separate(bs: seq<Bucket>) {
    forall i, j :: 0 <= i < j < |bs| ==> (bs[i].date, bs[i].project) != (bs[j].date, bs[j].project)
  }

  lemma {:induction false} SortSorts(bs: seq<Bucket>)
    requires Separate(bs)
    ensures StrictlySorted(Sort(bs)) && |Sort(bs)| == |bs|
    ensures forall x :: x in Sort(bs) <==> x in bs
  {
    hide StrictlySorted, Insert, InOrder;
    if bs == [] {
      NothingSorted();
    } else {
      var prefix, b := bs[..|bs| - 1], bs[|bs| - 1];
      SortSorts(prefix);
      assert bs == prefix + [b];
      forall x {
        InsertKeeps(Sort(prefix), b, x);
      }
      forall i | 0 <= i < |Sort(prefix)|
        ensures (Sort(prefix)[i].date, Sort(prefix)[i].project) != (b.date, b.project)
      {
        assert Sort(prefix)[i] in prefix;
      }
      InsertSorts(Sort(prefix), b);
      InsertKeeps(Sort(prefix), b, b);
    }
  }

  lemma NothingSorted()
    ensures StrictlySorted([])
  {}

  /** The buckets that a filter accepts, each once. */
  ghost predicate Answers(bs: seq<Bucket>, m: Rollup, filter: Filter) {
    && Separate(bs)
    && forall b :: b in bs <==>
      (b.date, b.project) in m && m[(b.date, b.project)] == b && filter.Accepts(b.date, b.project)
  }

  /** The accepted buckets in the order of date and project, whatever the order of the map. */
  method SortedBuckets(m: Rollup, filter: Filter) returns (out: seq<Bucket>)
    requires Labelled(m)
    ensures StrictlySorted(out) && Answers(out, m, filter)
  {
    hide InOrder, StrictlySorted;
    out := [];
    var rest := m.Keys;
    ghost var done: set<(string, string)> := {};
    while rest != {}
      invariant Visiting(rest, done, m.Keys)
      invariant Separate(out)
      invariant forall b :: b in out <==>
        (b.date, b.project) in done && m[(b.date, b.project)] == b && filter.Accepts(b.date, b.project)
      decreases rest
    {
      hide Visiting;
      var key :| key in rest;
      VisitOne(rest, done, m.Keys, key);
      assert key == (key.0, key.1);
      if filter.Accepts(m[key].date, m[key].project) {
        forall i | 0 <= i < |out| ensures (out[i].date, out[i].project) != key {
          assert out[i] in out;
        }
        out := out + [m[key]];
      }
      rest, done := rest - {key}, done + {key};
    }
    assert done == m.Keys;
    SortSorts(out);
    out := Sort(out);
    SortedAreSeparate(out);
  }

  lemma SortedAreSeparate(bs: seq<Bucket>)
    requires StrictlySorted(bs)
    ensures Separate(bs)
  {
    forall i, j | 0 <= i < j < |bs| ensures (bs[i].date, bs[i].project) != (bs[j].date, bs[j].project) {
      assert InOrder(bs[i], bs[j]);
      Irreflexive(bs[i].date);
      Irreflexive(bs[i].project);
    }
  }

  // ---- What the totals should be, counted over the sessions ----

  function MatchingHits(hits: seq<Hit>, project: string, filter: Filter, c: Column): nat {
    if hits == [] then 0
    else
      var h := hits[|hits| - 1];
      MatchingHits(hits[..|hits| - 1], project, filter, c)
      + if filter.Accepts(h.date, project) then h.usage.Get(c) else 0
  }

  /** The usage of all lines that count and match. */
  function Matching(rows: seq<Row>, dateOf: DateOf, filter: Filter, c: Column): nat {
    if rows == [] then 0
    else
      var r := rows[|rows| - 1];
      Matching(rows[..|rows| - 1], dateOf, filter, c) + MatchingHits(HitsOf(r, dateOf), r.project, filter, c)
  }

  function MatchingDates(r: Row, dateOf: DateOf, filter: Filter): set<string> {
    set d | d in Dates(HitsOf(r, dateOf)) && filter.Accepts(d, r.project)
  }

  /** The number of dates of sessions that match: a session counts once for every date. */
  function MatchingSessions(rows: seq<Row>, dateOf: DateOf, filter: Filter): nat {
    if rows == [] then 0
    else
      MatchingSessions(rows[..|rows| - 1], dateOf, filter) + |MatchingDates(rows[|rows| - 1], dateOf, filter)|
  }

  // ---- Sums over buckets are sums over sessions ----

  function TotalOf(bs: seq<Bucket>, c: Column): nat {
    if bs == [] then 0 else TotalOf(bs[..|bs| - 1], c) + bs[|bs| - 1].Get(c)
  }

  function TotalSessions(bs: seq<Bucket>): nat {
    if bs == [] then 0 else TotalSessions(bs[..|bs| - 1]) + bs[|bs| - 1].sessions
  }

  // One session's share of some buckets.
  function Share(hits: seq<Hit>, project: string, bs: seq<Bucket>, c: Column): nat {
    if bs == [] then 0
    else
      var b := bs[|bs| - 1];
      Share(hits, project, bs[..|bs| - 1], c) + if b.project == project then DateSum(hits, b.date, c) else 0
  }

  function Visits(r: Row, dateOf: DateOf, bs: seq<Bucket>): nat {
    if bs == [] then 0
    else
      var b := bs[|bs| - 1];
      Visits(r, dateOf, bs[..|bs| - 1]) + if Touches(r, dateOf, b.date, b.project) then 1 else 0
  }

  function Shares(rows: seq<Row>, dateOf: DateOf, bs: seq<Bucket>, c: Column): nat {
    if rows == [] then 0
    else
      var r := rows[|rows| - 1];
      Shares(rows[..|rows| - 1], dateOf, bs, c) + Share(HitsOf(r, dateOf), r.project, bs, c)
  }

  function AllVisits(rows: seq<Row>, dateOf: DateOf, bs: seq<Bucket>): nat {
    if rows == [] then 0
    else AllVisits(rows[..|rows| - 1], dateOf, bs) + Visits(rows[|rows| - 1], dateOf, bs)
  }

  lemma {:induction false} SharesOfLast(rows: seq<Row>, dateOf: DateOf, bs: seq<Bucket>, c: Column)
    requires bs != []
    ensures var b := bs[|bs| - 1];
      && Shares(rows, dateOf, bs, c) ==
        Shares(rows, dateOf, bs[..|bs| - 1], c) + BucketSum(rows, dateOf, b.date, b.project, c)
      && AllVisits(rows, dateOf, bs) ==
        AllVisits(rows, dateOf, bs[..|bs| - 1]) + SessionCount(rows, dateOf, b.date, b.project)
  {
    hide HitsOf, DateSum, Touches;
    if rows != [] {
      SharesOfLast(rows[..|rows| - 1], dateOf, bs, c);
    }
  }

  lemma {:induction false} NoShares(rows: seq<Row>, dateOf: DateOf, c: Column)
    ensures Shares(rows, dateOf, [], c) == 0 && AllVisits(rows, dateOf, []) == 0
  {
    if rows != [] {
      NoShares(rows[..|rows| - 1], dateOf, c);
    }
  }

  lemma {:induction false} TotalsAreShares(
    m: Rollup, rows: seq<Row>, dateOf: DateOf, bs: seq<Bucket>, c: Column)
    requires IsRollup(m, rows, dateOf)
    requires forall i :: 0 <= i < |bs| ==>
      (bs[i].date, bs[i].project) in m && m[(bs[i].date, bs[i].project)] == bs[i]
    ensures TotalOf(bs, c) == Shares(rows, dateOf, bs, c)
    ensures TotalSessions(bs) == AllVisits(rows, dateOf, bs)
  {
    hide Shares, AllVisits, BucketSum, SessionCount;
    if bs == [] {
      NoShares(rows, dateOf, c);
    } else {
      var b := bs[|bs| - 1];
      TotalsAreShares(m, rows, dateOf, bs[..|bs| - 1], c);
      SharesOfLast(rows, dateOf, bs, c);
      assert Reading(m, b.date, b.project, c) == BucketSum(rows, dateOf, b.date, b.project, c);
      assert Sessions(m, b.date, b.project) == SessionCount(rows, dateOf, b.date, b.project);
    }
  }

  lemma SeparateSplits(bs: seq<Bucket>, date: string, project: string)
    requires Separate(bs) && bs != []
    ensures Separate(bs[..|bs| - 1])
    ensures var b := bs[|bs| - 1];
      && (!Absent(bs, date, project) <==>
            !Absent(bs[..|bs| - 1], date, project) || (b.date, b.project) == (date, project))
      && !(!Absent(bs[..|bs| - 1], date, project) && (b.date, b.project) == (date, project))
  {}

  lemma {:induction false} OneHitMore(hits: seq<Hit>, h: Hit, project: string, bs: seq<Bucket>, c: Column)
    requires Separate(bs)
    ensures Share(hits + [h], project, bs, c) ==
      Share(hits, project, bs, c) + if Absent(bs, h.date, project) then 0 else h.usage.Get(c)
  {
    hide Separate, Absent;
    if bs == [] {
      NoneThere(h.date, project);
    } else {
      assert (hits + [h])[..|hits|] == hits;
      SeparateSplits(bs, h.date, project);
      OneHitMore(hits, h, project, bs[..|bs| - 1], c);
    }
  }

  lemma NoneThere(date: string, project: string)
    ensures Absent([], date, project)
  {}

  lemma {:induction false} NoHitsNoShare(project: string, bs: seq<Bucket>, c: Column)
    ensures Share([], project, bs, c) == 0
  {
    if bs != [] {
      NoHitsNoShare(project, bs[..|bs| - 1], c);
    }
  }

  lemma {:induction false} ShareIsMatching(
    hits: seq<Hit>, project: string, bs: seq<Bucket>, filter: Filter, c: Column)
    requires Separate(bs)
    requires forall d :: d in Dates(hits) ==> (Absent(bs, d, project) <==> !filter.Accepts(d, project))
    ensures Share(hits, project, bs, c) == MatchingHits(hits, project, filter, c)
  {
    hide Absent, Separate, Share;
    if hits == [] {
      NoHitsNoShare(project, bs, c);
    } else {
      var prefix, h := hits[..|hits| - 1], hits[|hits| - 1];
      ShareIsMatching(prefix, project, bs, filter, c);
      OneHitMore(prefix, h, project, bs, c);
      assert prefix + [h] == hits;
    }
  }

  lemma {:induction false} VisitsAreDates(r: Row, dateOf: DateOf, bs: seq<Bucket>)
    requires Separate(bs)
    ensures Visits(r, dateOf, bs) == |set d | d in Dates(HitsOf(r, dateOf)) && !Absent(bs, d, r.project)|
  {
    hide Separate, Absent, HitsOf, Dates;
    var dates := Dates(HitsOf(r, dateOf));
    var all := set d | d in dates && !Absent(bs, d, r.project);
    if bs == [] {
      forall d ensures Absent(bs, d, r.project) {
        NoneThere(d, r.project);
      }
      assert all == {};
    } else {
      var b := bs[|bs| - 1];
      var fewer := set d | d in dates && !Absent(bs[..|bs| - 1], d, r.project);
      forall d {
        SeparateSplits(bs, d, r.project);
      }
      SeparateSplits(bs, b.date, r.project);
      VisitsAreDates(r, dateOf, bs[..|bs| - 1]);
      if Touches(r, dateOf, b.date, b.project) {
        assert all == fewer + {b.date};
      } else {
        assert all == fewer;
      }
    }
  }

  lemma {:induction false} RowsTouch(rows: seq<Row>, dateOf: DateOf, r: Row, date: string)
    requires r in rows && date in Dates(HitsOf(r, dateOf))
    ensures SessionCount(rows, dateOf, date, r.project) > 0
  {
    hide Dates, HitsOf;
    if rows[|rows| - 1] != r {
      RowsTouch(rows[..|rows| - 1], dateOf, r, date);
    }
  }

  // A date of a session has an accepted bucket exactly if the filter accepts it.
  lemma AcceptedIsPresent(
    m: Rollup, rows: seq<Row>, dateOf: DateOf, bs: seq<Bucket>, filter: Filter, r: Row, date: string)
    requires IsRollup(m, rows, dateOf) && Answers(bs, m, filter)
    requires r in rows && date in Dates(HitsOf(r, dateOf))
    ensures Absent(bs, date, r.project) <==> !filter.Accepts(date, r.project)
  {
    hide BucketSum, SessionCount, Dates, HitsOf;
    RowsTouch(rows, dateOf, r, date);
    assert (date, r.project) in m;
    var b := m[(date, r.project)];
    if filter.Accepts(date, r.project) {
      assert b in bs;
    } else {
      forall i | 0 <= i < |bs| ensures (bs[i].date, bs[i].project) != (date, r.project) {
        assert bs[i] in bs;
      }
    }
  }

  lemma {:induction false} SharesAreMatching(
    m: Rollup, rows: seq<Row>, dateOf: DateOf, bs: seq<Bucket>, filter: Filter, c: Column, some: seq<Row>)
    requires IsRollup(m, rows, dateOf) && Answers(bs, m, filter)
    requires forall i :: 0 <= i < |some| ==> some[i] in rows
    ensures Shares(some, dateOf, bs, c) == Matching(some, dateOf, filter, c)
    ensures AllVisits(some, dateOf, bs) == MatchingSessions(some, dateOf, filter)
  {
    hide IsRollup, Answers, Dates, HitsOf, Absent, Share, MatchingHits, Visits;
    if some != [] {
      var r := some[|some| - 1];
      SharesAreMatching(m, rows, dateOf, bs, filter, c, some[..|some| - 1]);
      AnswersSeparate(bs, m, filter);
      forall d | d in Dates(HitsOf(r, dateOf)) {
        AcceptedIsPresent(m, rows, dateOf, bs, filter, r, d);
      }
      ShareIsMatching(HitsOf(r, dateOf), r.project, bs, filter, c);
      VisitsAreDates(r, dateOf, bs);
      assert (set d | d in Dates(HitsOf(r, dateOf)) && !Absent(bs, d, r.project)) == MatchingDates(r, dateOf, filter);
    }
  }

  lemma AnswersSeparate(bs: seq<Bucket>, m: Rollup, filter: Filter)
    requires Answers(bs, m, filter)
    ensures Separate(bs)
    ensures forall i :: 0 <= i < |bs| ==>
      (bs[i].date, bs[i].project) in m && m[(bs[i].date, bs[i].project)] == bs[i]
  {
    forall i | 0 <= i < |bs| ensures (bs[i].date, bs[i].project) in m && m[(bs[i].date, bs[i].project)] == bs[i] {
      assert bs[i] in bs;
    }
  }

  /** The totals over the accepted buckets are the totals over the matching lines of all sessions. */
  lemma TotalsAreMatching(
    m: Rollup, rows: seq<Row>, dateOf: DateOf, bs: seq<Bucket>, filter: Filter, c: Column)
    requires IsRollup(m, rows, dateOf) && Answers(bs, m, filter)
    ensures TotalOf(bs, c) == Matching(rows, dateOf, filter, c)
    ensures TotalSessions(bs) == MatchingSessions(rows, dateOf, filter)
  {
    hide IsRollup, Answers;
    AnswersSeparate(bs, m, filter);
    TotalsAreShares(m, rows, dateOf, bs, c);
    SharesAreMatching(m, rows, dateOf, bs, filter, c, rows);
  }

  // ---- Per project ----

  function AllProjects(f: Filter): Filter {
    f.(projectId := None)
  }

  function ForProject(f: Filter, project: string): Filter {
    f.(projectId := Some(project))
  }

  function SumOfProjects(
    rows: seq<Row>, dateOf: DateOf, filter: Filter, projects: seq<string>, c: Column): nat
  {
    if projects == [] then 0
    else
      SumOfProjects(rows, dateOf, filter, projects[..|projects| - 1], c)
      + Matching(rows, dateOf, ForProject(filter, projects[|projects| - 1]), c)
  }

  function SessionsOfProjects(rows: seq<Row>, dateOf: DateOf, filter: Filter, projects: seq<string>): nat {
    if projects == [] then 0
    else
      SessionsOfProjects(rows, dateOf, filter, projects[..|projects| - 1])
      + MatchingSessions(rows, dateOf, ForProject(filter, projects[|projects| - 1]))
  }

  lemma {:induction false} OtherProject(hits: seq<Hit>, project: string, filter: Filter, other: string, c: Column)
    ensures MatchingHits(hits, project, ForProject(filter, other), c) ==
      if other == project then MatchingHits(hits, project, AllProjects(filter), c) else 0
  {
    if hits != [] {
      OtherProject(hits[..|hits| - 1], project, filter, other, c);
    }
  }

  lemma OtherDates(r: Row, dateOf: DateOf, filter: Filter, other: string)
    ensures MatchingDates(r, dateOf, ForProject(filter, other)) ==
      if other == r.project then MatchingDates(r, dateOf, AllProjects(filter)) else {}
  {}

  // Adding one session to the sums over some projects.
  lemma {:induction false} OneRowMore(
    rows: seq<Row>, dateOf: DateOf, filter: Filter, projects: seq<string>, c: Column)
    requires rows != [] && forall i, j :: 0 <= i < j < |projects| ==> projects[i] != projects[j]
    ensures var r, before, here := rows[|rows| - 1], rows[..|rows| - 1], rows[|rows| - 1].project in projects;
      && SumOfProjects(rows, dateOf, filter, projects, c) ==
        SumOfProjects(before, dateOf, filter, projects, c)
        + (if here then MatchingHits(HitsOf(r, dateOf), r.project, AllProjects(filter), c) else 0)
      && SessionsOfProjects(rows, dateOf, filter, projects) ==
        SessionsOfProjects(before, dateOf, filter, projects)
        + (if here then |MatchingDates(r, dateOf, AllProjects(filter))| else 0)
  {
    hide HitsOf, MatchingHits, MatchingDates, ForProject, AllProjects;
    if projects != [] {
      var r, p := rows[|rows| - 1], projects[|projects| - 1];
      OneRowMore(rows, dateOf, filter, projects[..|projects| - 1], c);
      OtherProject(HitsOf(r, dateOf), r.project, filter, p, c);
      OtherDates(r, dateOf, filter, p);
      assert projects == projects[..|projects| - 1] + [p];
    }
  }

  /** The total over all projects is the sum of the totals of each, for any dates. */
  lemma {:induction false} ProjectsAddUp(
    rows: seq<Row>, dateOf: DateOf, filter: Filter, projects: seq<string>, c: Column)
    requires forall i, j :: 0 <= i < j < |projects| ==> projects[i] != projects[j]
    requires forall i :: 0 <= i < |rows| ==> rows[i].project in projects
    ensures Matching(rows, dateOf, AllProjects(filter), c) == SumOfProjects(rows, dateOf, filter, projects, c)
    ensures MatchingSessions(rows, dateOf, AllProjects(filter)) == SessionsOfProjects(rows, dateOf, filter, projects)
  {
    hide MatchingHits, MatchingDates, HitsOf;
    if rows == [] {
      NoRows(dateOf, filter, projects, c);
    } else {
      ProjectsAddUp(rows[..|rows| - 1], dateOf, filter, projects, c);
      OneRowMore(rows, dateOf, filter, projects, c);
    }
  }

  lemma {:induction false} NoRows(dateOf: DateOf, filter: Filter, projects: seq<string>, c: Column)
    ensures SumOfProjects([], dateOf, filter, projects, c) == 0
    ensures SessionsOfProjects([], dateOf, filter, projects) == 0
  {
    if projects != [] {
      NoRows(dateOf, filter, projects[..|projects| - 1], c);
    }
  }

  function Everything(): Filter {
    Filter(None, None, None)
  }

  function UsageOfHits(hits: seq<Hit>, c: Column): nat {
    if hits == [] then 0 else UsageOfHits(hits[..|hits| - 1], c) + hits[|hits| - 1].usage.Get(c)
  }

  lemma {:induction false} EverythingMatches(hits: seq<Hit>, project: string, c: Column)
    ensures MatchingHits(hits, project, Everything(), c) == UsageOfHits(hits, c)
  {
    if hits != [] {
      EverythingMatches(hits[..|hits| - 1], project, c);
    }
  }
}
