/** The rollup as the server keeps it: rebuilt from the catalog, and asked for buckets and totals. */
module RollupFeature {
  import opened AnalyticsRollup
  import opened LexOrder
  import opened Options
  import opened RollupColumns

  datatype Totals = Totals(
    input: nat, output: nat, cacheRead: nat, cacheCreation: nat, sessions: nat, buckets: nat)
  {
    function Get(c: Column): nat {
      match c
      case Input => input
      case Output => output
      case CacheRead => cacheRead
      case CacheCreation => cacheCreation
    }
  }

  class AnalyticsRollupFeature {
    const dateOf: DateOf
    var inner: Rollup
    // The catalog of the last rebuild.
    ghost var catalog: seq<Row>

    ghost predicate Valid()
      reads this
    {
      IsRollup(inner, catalog, dateOf)
    }

    constructor (dateOf: DateOf)
      ensures Valid() && catalog == [] && this.dateOf == dateOf
    {
      this.dateOf, inner, catalog := dateOf, map[], [];
      new;
      EmptyRollup(dateOf);
    }

    method Rebuild(rows: seq<Row>)
      modifies this
      ensures Valid() && catalog == rows
    {
      inner := RebuildAll(rows, dateOf);
      catalog := rows;
    }

    /** The stored buckets in the range of dates and of the project asked for, in order. */
    method DailySums(filter: Filter) returns (out: seq<Bucket>)
      requires Valid()
      ensures StrictlySorted(out) && Answers(out, inner, filter)
      ensures forall i, j :: 0 <= i < j < |out| ==>
        || Below(out[i].date, out[j].date)
        || (out[i].date == out[j].date && Below(out[i].project, out[j].project))
      ensures forall b :: b in out ==> (b.date, b.project) in inner && inner[(b.date, b.project)] == b
      ensures forall date, project :: (date, project) in inner ==>
        (inner[(date, project)] in out <==>
          && (filter.projectId == None || filter.projectId == Some(project))
          && (filter.dateFrom == None || date == filter.dateFrom.value || Below(filter.dateFrom.value, date))
          && (filter.dateTo == None || date == filter.dateTo.value || Below(date, filter.dateTo.value)))
    {
      hide Separate, IsRollup;
      IsLabelled(inner, catalog, dateOf);
      out := SortedBuckets(inner, filter);
      forall date, project {
        AcceptsWithin(filter, date, project);
      }
    }

    /** The sums of the lines that count in the range, and the number of sessions on each of its days. */
    method TotalSums(filter: Filter) returns (t: Totals)
      requires Valid()
      ensures t.input == SumRows(catalog, dateOf, Within(filter), InputOf)
      ensures t.output == SumRows(catalog, dateOf, Within(filter), OutputOf)
      ensures t.cacheRead == SumRows(catalog, dateOf, Within(filter), CacheReadOf)
      ensures t.cacheCreation == SumRows(catalog, dateOf, Within(filter), CacheCreationOf)
      ensures t.sessions == CountDays(catalog, dateOf, Within(filter))
      ensures forall c :: t.Get(c) == Matching(catalog, dateOf, filter, c)
      ensures t.sessions == MatchingSessions(catalog, dateOf, filter)
      ensures t.buckets == |set key | key in inner && Within(filter)(key.0, key.1)|
    {
      hide Answers, IsRollup, Labelled, Matching, MatchingSessions, SumRows, CountDays, Selects, Reads, Within;
      var buckets := DailySums(filter);
      t := Totals(0, 0, 0, 0, 0, |buckets|);
      for i := 0 to |buckets|
        invariant t.buckets == |buckets| && t.sessions == TotalSessions(buckets[..i])
        invariant forall c :: t.Get(c) == TotalOf(buckets[..i], c)
      {
        var b := buckets[i];
        assert buckets[..i + 1][..i] == buckets[..i];
        t := t.(
          input := t.input + b.input, output := t.output + b.output, cacheRead := t.cacheRead + b.cacheRead,
          cacheCreation := t.cacheCreation + b.cacheCreation, sessions := t.sessions + b.sessions);
      }
      assert buckets[..|buckets|] == buckets;
      forall c {
        TotalsAreMatching(inner, catalog, dateOf, buckets, filter, c);
      }
      TotalsAreMatching(inner, catalog, dateOf, buckets, filter, Input);
      TotalsByName(t, filter);
      IsLabelled(inner, catalog, dateOf);
      SizeOfAnswer(buckets, inner, filter);
    }

    lemma TotalsByName(t: Totals, filter: Filter)
      requires forall c :: t.Get(c) == Matching(catalog, dateOf, filter, c)
      ensures t.input == SumRows(catalog, dateOf, Within(filter), InputOf)
      ensures t.output == SumRows(catalog, dateOf, Within(filter), OutputOf)
      ensures t.cacheRead == SumRows(catalog, dateOf, Within(filter), CacheReadOf)
      ensures t.cacheCreation == SumRows(catalog, dateOf, Within(filter), CacheCreationOf)
      ensures MatchingSessions(catalog, dateOf, filter) == CountDays(catalog, dateOf, Within(filter))
    {
      hide Matching, MatchingSessions, SumRows, CountDays, Selects, Reads, Within;
      WithinSelects(filter);
      ColumnsRead();
      RowsMatch(catalog, dateOf, filter, Within(filter), Input, InputOf);
      RowsMatch(catalog, dateOf, filter, Within(filter), Output, OutputOf);
      RowsMatch(catalog, dateOf, filter, Within(filter), CacheRead, CacheReadOf);
      RowsMatch(catalog, dateOf, filter, Within(filter), CacheCreation, CacheCreationOf);
      assert t.Get(Input) == t.input && t.Get(Output) == t.output;
      assert t.Get(CacheRead) == t.cacheRead && t.Get(CacheCreation) == t.cacheCreation;
    }
  }
}
