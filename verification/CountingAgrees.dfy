/** The session statistics count the last line of a message, the rollup the first. When both give the same totals. */
module CountingAgrees {
  import opened Options
  import R = AnalyticsRollup
  import S = SessionSums
  import T = SessionStats
  import C = ReportColumns
  import N = RollupColumns

  function FieldOf(c: R.Column): S.Field {
    match c
    case Input => S.Input
    case Output => S.Output
    case CacheRead => S.CacheRead
    case CacheCreation => S.CacheCreation
  }

  /** The same usage, read with missing counts as zero. */
  ghost predicate SameUsage(s: Option<S.Usage>, r: Option<R.Usage>) {
    && (s.Some? <==> r.Some?)
    && (s.Some? ==>
          && s.value.input == r.value.input.GetOr(0) && s.value.output == r.value.output.GetOr(0)
          && s.value.cacheRead == r.value.cacheRead.GetOr(0)
          && s.value.cacheCreation == r.value.cacheCreation.GetOr(0))
  }

  /** Two readings of one line of the log, on which type and role agree. */
  ghost predicate SameLine(s: S.Line, r: R.Line) {
    && (s.IsAssistant() <==> r.lineType == Some("assistant") && r.message.Some?)
    && (s.IsAssistant() ==>
          s.message.value.id == r.message.value.id && SameUsage(s.message.value.usage, r.message.value.usage))
  }

  ghost predicate SameLog(ss: seq<S.Line>, rs: seq<R.Line>) {
    |ss| == |rs| && forall i :: 0 <= i < |ss| ==> SameLine(ss[i], rs[i])
  }

  predicate SameMessage(a: S.Line, b: S.Line) {
    && a.IsAssistant() && b.IsAssistant()
    && a.message.value.id.Some? && a.message.value.id == b.message.value.id
  }

  /** All lines of one message carry the same usage. */
  ghost predicate SteadyUsage(ss: seq<S.Line>) {
    forall i, j :: 0 <= i < j < |ss| && SameMessage(ss[i], ss[j]) ==>
      ss[i].message.value.usage == ss[j].message.value.usage
  }

  /** Every line that may count has a date. */
  ghost predicate AllDated(rs: seq<R.Line>, dateOf: R.DateOf) {
    forall i :: 0 <= i < |rs| && rs[i].Uses() ==> R.DateOfLine(rs[i], dateOf).Some?
  }

  function LineTokens(l: S.Line, f: S.Field): nat {
    if l.IsAssistant() then S.TokensOf(S.SnapshotOf(l.message.value), f) else 0
  }

  // ---- Last wins, built up line by line ----

  function LastWith(lines: seq<S.Line>, id: string): (i: nat)
    requires S.HasId(lines, id)
    ensures i < |lines| && lines[i].IsAssistant() && lines[i].message.value.id == Some(id)
  {
    if S.HasId(lines[1..], id) then 1 + LastWith(lines[1..], id) else 0
  }

  lemma {:induction false} HasIdAppend(lines: seq<S.Line>, l: S.Line, id: string)
    ensures S.HasId(lines + [l], id) <==>
      S.HasId(lines, id) || (l.IsAssistant() && l.message.value.id == Some(id))
  {
    if lines == [] {
      assert lines + [l] == [l];
    } else {
      assert (lines + [l])[1..] == lines[1..] + [l];
      HasIdAppend(lines[1..], l, id);
    }
  }

  predicate Repeats(lines: seq<S.Line>, l: S.Line) {
    l.IsAssistant() && l.message.value.id.Some? && S.HasId(lines, l.message.value.id.value)
  }

  lemma {:induction false} CompactAppend(lines: seq<S.Line>, l: S.Line, f: S.Field)
    ensures S.SumAll(S.Compact(lines + [l]), S.Tokens(f))
      + (if Repeats(lines, l) then LineTokens(lines[LastWith(lines, l.message.value.id.value)], f) else 0) ==
      S.SumAll(S.Compact(lines), S.Tokens(f)) + LineTokens(l, f)
  {
    hide S.SnapshotOf, S.TokensOf;
    if lines == [] {
      assert lines + [l] == [l];
      assert S.Compact([l]) == [l] + S.Compact([]);
      assert [l][1..] == [];
    } else {
      var rest := lines[1..];
      assert (lines + [l])[1..] == rest + [l];
      assert ([lines[0]] + S.Compact(rest))[1..] == S.Compact(rest);
      assert ([lines[0]] + S.Compact(rest + [l]))[1..] == S.Compact(rest + [l]);
      CompactAppend(rest, l, f);
      if lines[0].IsAssistant() && lines[0].message.value.id.Some? {
        HasIdAppend(rest, l, lines[0].message.value.id.value);
      }
    }
  }

  // ---- First wins ----

  lemma {:induction false} SeenIsId(ss: seq<S.Line>, rs: seq<R.Line>, id: string)
    requires SameLog(ss, rs) && id in R.Seen(rs)
    ensures S.HasId(ss, id)
  {
    var n := |rs| - 1;
    HasIdAppend(ss[..n], ss[n], id);
    assert ss == ss[..n] + [ss[n]];
    assert SameLine(ss[n], rs[n]);
    if id in R.Seen(rs[..n]) {
      SeenIsId(ss[..n], rs[..n], id);
    }
  }

  lemma {:induction false} UsedIsSeen(rs: seq<R.Line>, i: nat)
    requires i < |rs| && rs[i].Uses() && rs[i].message.value.id.Some?
    ensures rs[i].message.value.id.value in R.Seen(rs)
  {
    if i < |rs| - 1 {
      UsedIsSeen(rs[..|rs| - 1], i);
    }
  }

  // A repeated line carries what its earlier version did, which has been seen if it can count.
  lemma RepeatedIsSeen(ss: seq<S.Line>, rs: seq<R.Line>, l: S.Line, r: R.Line, f: S.Field)
    requires SameLog(ss, rs) && SameLine(l, r) && SteadyUsage(ss + [l]) && Repeats(ss, l)
    ensures LineTokens(ss[LastWith(ss, l.message.value.id.value)], f) == LineTokens(l, f)
    ensures r.Uses() ==> l.message.value.id.value in R.Seen(rs)
  {
    var i := LastWith(ss, l.message.value.id.value);
    assert (ss + [l])[i] == ss[i] && (ss + [l])[|ss|] == l && SameMessage(ss[i], l);
    assert SameLine(ss[i], rs[i]);
    if r.Uses() {
      UsedIsSeen(rs, i);
    }
  }

  lemma {:induction false} OneLineMore(
    ss: seq<S.Line>, rs: seq<R.Line>, l: S.Line, r: R.Line, dateOf: R.DateOf, c: R.Column)
    requires SameLog(ss, rs) && SameLine(l, r) && SteadyUsage(ss + [l])
    requires r.Uses() ==> R.DateOfLine(r, dateOf).Some?
    ensures R.UsageOfHits(R.Hits(rs + [r], dateOf), c) ==
      R.UsageOfHits(R.Hits(rs, dateOf), c) + if Repeats(ss, l) then 0 else LineTokens(l, FieldOf(c))
  {
    assert (rs + [r])[..|rs|] == rs;
    if Repeats(ss, l) {
      RepeatedIsSeen(ss, rs, l, r, FieldOf(c));
    } else if r.Uses() && l.message.value.id.Some? {
      if l.message.value.id.value in R.Seen(rs) {
        SeenIsId(ss, rs, l.message.value.id.value);
      }
    }
  }

  /** First wins and last wins give the same sums if every message carries the same usage on all its lines and every
    * line that may count has a date. */
  lemma {:induction false} FirstWinsIsLastWins(ss: seq<S.Line>, rs: seq<R.Line>, dateOf: R.DateOf, c: R.Column)
    requires SameLog(ss, rs) && SteadyUsage(ss) && AllDated(rs, dateOf)
    ensures R.UsageOfHits(R.Hits(rs, dateOf), c) == S.SumAll(S.Compact(ss), S.Tokens(FieldOf(c)))
  {
    if ss != [] {
      hide R.Hits, R.UsageOfHits, S.Compact, S.SumAll, LineTokens, SameLine, R.DateOfLine;
      var n := |ss| - 1;
      var before, l, r := ss[..n], ss[n], rs[n];
      FirstWinsIsLastWins(before, rs[..n], dateOf, c);
      assert before + [l] == ss && rs[..n] + [r] == rs;
      OneLineMore(before, rs[..n], l, r, dateOf, c);
      CompactAppend(before, l, FieldOf(c));
      if Repeats(before, l) {
        RepeatedIsSeen(before, rs[..n], l, r, FieldOf(c));
      }
    }
  }

  /** Under these conditions, the totals of the session statistics and of the rollup of the session over all dates
    * differ by what collisions of made-up ids with real ones lose, so they are the same if and only if no line lost
    * carries such tokens. */
  lemma TotalsAgree(
    ss: seq<S.Line>, rs: seq<R.Line>, dateOf: R.DateOf, c: R.Column, report: T.Report, project: string)
    requires SameLog(ss, rs) && SteadyUsage(ss) && AllDated(rs, dateOf)
    requires T.IsReport(ss, report)
    ensures var total := R.Matching([R.Row(project, Some(rs))], dateOf, R.Everything(), c);
      && report.stats.tokens.Get(FieldOf(c)) + S.SumAll(S.Lost(ss, 0), S.Tokens(FieldOf(c))) == total
      && (report.stats.tokens.Get(FieldOf(c)) == total <==>
            forall l :: l in S.Lost(ss, 0) ==> LineTokens(l, FieldOf(c)) == 0)
  {
    hide T.Counts, T.IsPrimary, S.Lost, R.Hits, R.UsageOfHits, R.MatchingHits, SameLog, SteadyUsage, AllDated;
    var row := R.Row(project, Some(rs));
    T.ReadsTokens(report.stats, S.Entries(ss, 0), FieldOf(c));
    S.LostPlusLast(ss, 0, S.Tokens(FieldOf(c)));
    LostTokens(S.Lost(ss, 0), FieldOf(c));
    FirstWinsIsLastWins(ss, rs, dateOf, c);
    R.EverythingMatches(R.Hits(rs, dateOf), project, c);
    assert [row][..0] == [];
    assert R.HitsOf(row, dateOf) == R.Hits(rs, dateOf);
  }

  /** The same, name by name. */
  lemma ColumnsAgree(
    ss: seq<S.Line>, rs: seq<R.Line>, dateOf: R.DateOf, report: T.Report, project: string)
    requires SameLog(ss, rs) && SteadyUsage(ss) && AllDated(rs, dateOf)
    requires T.IsReport(ss, report)
    ensures var lost, rows, any := S.Lost(ss, 0), [R.Row(project, Some(rs))], N.Within(R.Filter(None, None, None));
      var t := report.stats.tokens;
      && t.input + C.SumOver(lost, C.InputOf) == N.SumRows(rows, dateOf, any, N.InputOf)
      && t.output + C.SumOver(lost, C.OutputOf) == N.SumRows(rows, dateOf, any, N.OutputOf)
      && t.cacheRead + C.SumOver(lost, C.CacheReadOf) == N.SumRows(rows, dateOf, any, N.CacheReadOf)
      && t.cacheCreation + C.SumOver(lost, C.CacheCreationOf) == N.SumRows(rows, dateOf, any, N.CacheCreationOf)
  {
    hide T.IsReport, S.Lost, SameLog, SteadyUsage, AllDated, N.SumRows, C.SumOver, N.Reads;
    N.ColumnsRead();
    ColumnAgrees(ss, rs, dateOf, R.Input, report, project, C.InputOf, N.InputOf);
    ColumnAgrees(ss, rs, dateOf, R.Output, report, project, C.OutputOf, N.OutputOf);
    ColumnAgrees(ss, rs, dateOf, R.CacheRead, report, project, C.CacheReadOf, N.CacheReadOf);
    ColumnAgrees(ss, rs, dateOf, R.CacheCreation, report, project, C.CacheCreationOf, N.CacheCreationOf);
  }

  lemma ColumnAgrees(
    ss: seq<S.Line>, rs: seq<R.Line>, dateOf: R.DateOf, c: R.Column, report: T.Report, project: string,
    f: S.Message -> nat, g: R.Usage -> nat)
    requires SameLog(ss, rs) && SteadyUsage(ss) && AllDated(rs, dateOf)
    requires T.IsReport(ss, report)
    requires N.Reads(g, c) && forall msg :: S.TokensOf(S.SnapshotOf(msg), FieldOf(c)) == f(msg)
    ensures report.stats.tokens.Get(FieldOf(c)) + C.SumOver(S.Lost(ss, 0), f) ==
      N.SumRows([R.Row(project, Some(rs))], dateOf, N.Within(R.Filter(None, None, None)), g)
  {
    hide T.IsReport, S.Lost, SameLog, SteadyUsage, AllDated, N.SumRows, N.Reads, N.Within, S.TokensOf;
    TotalsAgree(ss, rs, dateOf, c, report, project);
    N.WithinSelects(R.Everything());
    N.RowsMatch([R.Row(project, Some(rs))], dateOf, R.Everything(), N.Within(R.Everything()), c, g);
    C.SumAllIs(S.Lost(ss, 0), S.Tokens(FieldOf(c)), f);
  }

  lemma LostTokens(lines: seq<S.Line>, f: S.Field)
    ensures S.SumAll(lines, S.Tokens(f)) == 0 <==> forall l :: l in lines ==> LineTokens(l, f) == 0
  {
    S.SumOfZeros(lines, S.Tokens(f));
  }
}
