/** The in-memory analysis history of `ReportManager`, kept in two identical
    copies, app/core/report_manager.py and src/qualcomm/report_manager.py:
    adding a session summary, statistics over the history, deleting by id,
    resolving the latest report and removing reports past a cutoff.  JSON
    persistence and report files are not modelled; the clock is a parameter. */
module ReportHistory {
  import opened Basics
  import opened Text

  /** One history entry.  `timestamp` is the ISO time as seconds since the
      epoch, or `None` when it does not parse. */
  datatype Entry = Entry(
    id: string, timestamp: Option<real>, date: string, time: string,
    durationMinutes: real, overall: real, level: string, totalFrames: real,
    reportFile: string, posture: real, gesture: real, eyeContact: real,
    strengthsCount: nat, weaknessesCount: nat, recommendationsCount: nat)

  /** The persisted history: the entries and the stored `total_analyses`. */
  datatype History = History(analyses: seq<Entry>, total: int)

  /** A final session report as handed to `add_report`; every field may be missing. */
  datatype ReportData = ReportData(
    durationMinutes: Option<real>, totalFrames: Option<real>,
    overall: Option<real>, posture: Option<real>, gesture: Option<real>, eyeContact: Option<real>,
    performanceLevel: Option<string>,
    strengths: Option<seq<string>>, weaknesses: Option<seq<string>>, recommendations: Option<seq<string>>)

  /** The readings of the clock used by one `add_report` call. */
  datatype Clock = Clock(seconds: real, date: string, time: string, fileStamp: string)

  function OrZero(v: Option<real>): real
  {
    if v.Some? then v.value else 0.0
  }

  function LengthOr(v: Option<seq<string>>): nat
  {
    if v.Some? then |v.value| else 0
  }

  /** The id of the `n`-th analysis. */
  function IdOf(n: nat): (id: string)
    ensures |id| > 9 && id[..9] == "analysis_"
  {
    "analysis_" + NatToString(n)
  }

  lemma IdOfInjective(a: nat, b: nat)
    requires IdOf(a) == IdOf(b)
    ensures a == b
  {
    assert IdOf(a)[9..] == NatToString(a);
    assert IdOf(b)[9..] == NatToString(b);
    NatToStringInjective(a, b);
  }

  /** The entry built for a report, numbered `n`. */
  function NewEntry(n: nat, data: ReportData, clock: Clock): (e: Entry)
    ensures e.id == IdOf(n) && e.timestamp == Some(clock.seconds)
    ensures data.overall.None? ==> e.overall == 0.0
    ensures data.durationMinutes.None? ==> e.durationMinutes == 0.0
    ensures data.performanceLevel.None? ==> e.level == "N/A"
    ensures data.performanceLevel.Some? ==> e.level == data.performanceLevel.value
    ensures e.strengthsCount == LengthOr(data.strengths)
    ensures e.weaknessesCount == LengthOr(data.weaknesses)
    ensures e.recommendationsCount == LengthOr(data.recommendations)
  {
    Entry(IdOf(n), Some(clock.seconds), clock.date, clock.time,
          OrZero(data.durationMinutes), OrZero(data.overall),
          if data.performanceLevel.Some? then data.performanceLevel.value else "N/A",
          OrZero(data.totalFrames),
          "analysis_report_" + clock.fileStamp + ".json",
          OrZero(data.posture), OrZero(data.gesture), OrZero(data.eyeContact),
          LengthOr(data.strengths), LengthOr(data.weaknesses), LengthOr(data.recommendations))
  }

  /** `add_report`: the entry is appended and the total becomes the length
      before the report file is written; when that write fails the call
      answers `None`, but the entry stays in the history. */
  function AddReport(h: History, data: ReportData, clock: Clock, writeOk: bool): (r: (History, Option<Entry>))
    ensures |r.0.analyses| == |h.analyses| + 1
    ensures r.0.analyses[..|h.analyses|] == h.analyses
    ensures r.0.analyses[|h.analyses|] == NewEntry(|h.analyses| + 1, data, clock)
    ensures r.0.total == |r.0.analyses|
    ensures writeOk <==> r.1.Some?
    ensures r.1.Some? ==> r.1.value == r.0.analyses[|h.analyses|]
  {
    var e := NewEntry(|h.analyses| + 1, data, clock);
    var analyses := h.analyses + [e];
    (History(analyses, |analyses|), if writeOk then Some(e) else None)
  }

  /** The position of the first entry carrying `id`, if any. */
  function FirstWithId(es: seq<Entry>, id: string): (r: Option<nat>)
    ensures r.None? <==> forall k | 0 <= k < |es| :: es[k].id != id
    ensures r.Some? ==> r.value < |es| && es[r.value].id == id
    ensures r.Some? ==> forall k | 0 <= k < r.value :: es[k].id != id
  {
    if |es| == 0 then None
    else if es[0].id == id then Some(0)
    else
      var rest := FirstWithId(es[1..], id);
      if rest.None? then None else Some(rest.value + 1)
  }

  /** `delete_report`: drop the first entry with the id and answer true, or
      answer false and change nothing. */
  function DeleteReport(h: History, id: string): (r: (History, bool))
    ensures r.1 <==> exists k | 0 <= k < |h.analyses| :: h.analyses[k].id == id
    ensures !r.1 ==> r.0 == h
    ensures r.1 ==> |r.0.analyses| == |h.analyses| - 1 && r.0.total == |r.0.analyses|
    ensures r.1 ==> var i := FirstWithId(h.analyses, id).value;
                    r.0.analyses == h.analyses[..i] + h.analyses[i + 1..]
  {
    var at := FirstWithId(h.analyses, id);
    if at.None? then (h, false)
    else
      var i := at.value;
      var analyses := h.analyses[..i] + h.analyses[i + 1..];
      (History(analyses, |analyses|), true)
  }

  /** The entry whose report `get_latest_report` loads: it looks up the id of
      the last entry, and the lookup stops at the first entry with that id. */
  function LatestReport(h: History): (r: Option<Entry>)
    ensures r.None? <==> |h.analyses| == 0
    ensures r.Some? ==> r.value in h.analyses && r.value.id == h.analyses[|h.analyses| - 1].id
  {
    if |h.analyses| == 0 then None
    else
      var at := FirstWithId(h.analyses, h.analyses[|h.analyses| - 1].id);
      Some(h.analyses[at.value])
  }

  predicate IdsDistinct(es: seq<Entry>)
  {
    forall i, j | 0 <= i < j < |es| :: es[i].id != es[j].id
  }

  /** With distinct ids the latest report is the last entry. */
  lemma LatestIsLastWhenIdsDistinct(h: History)
    requires IdsDistinct(h.analyses) && |h.analyses| > 0
    ensures LatestReport(h) == Some(h.analyses[|h.analyses| - 1])
  {
  }

  // ---------------------------------------------------------------------
  // Statistics

  /** Count of each performance level, in order of first appearance. */
  function Bump(dist: seq<(string, nat)>, level: string): (r: seq<(string, nat)>)
    ensures |r| >= 1
  {
    if |dist| == 0 then [(level, 1)]
    else if dist[0].0 == level then [(level, dist[0].1 + 1)] + dist[1..]
    else [dist[0]] + Bump(dist[1..], level)
  }

  function Distribution(levels: seq<string>): seq<(string, nat)>
  {
    if |levels| == 0 then [] else Bump(Distribution(levels[..|levels| - 1]), levels[|levels| - 1])
  }

  function TotalCount(dist: seq<(string, nat)>): nat
  {
    if |dist| == 0 then 0 else dist[0].1 + TotalCount(dist[1..])
  }

  /** The count stored for `level`, zero when it is absent. */
  function CountOf(dist: seq<(string, nat)>, level: string): nat
  {
    if |dist| == 0 then 0 else if dist[0].0 == level then dist[0].1 else CountOf(dist[1..], level)
  }

  /** The levels named in a distribution. */
  function KeySet(dist: seq<(string, nat)>): set<string>
  {
    if |dist| == 0 then {} else {dist[0].0} + KeySet(dist[1..])
  }

  /** Every level appears once. */
  predicate LevelsDistinct(dist: seq<(string, nat)>)
  {
    |dist| == 0 || (dist[0].0 !in KeySet(dist[1..]) && LevelsDistinct(dist[1..]))
  }

  lemma {:induction false} BumpKeys(dist: seq<(string, nat)>, level: string)
    requires LevelsDistinct(dist)
    ensures KeySet(Bump(dist, level)) == KeySet(dist) + {level}
    ensures LevelsDistinct(Bump(dist, level))
    decreases |dist|
  {
    if |dist| > 0 && dist[0].0 != level {
      BumpKeys(dist[1..], level);
      assert Bump(dist, level)[1..] == Bump(dist[1..], level);
    } else if |dist| > 0 {
      assert Bump(dist, level)[1..] == dist[1..];
    }
  }

  lemma {:induction false} BumpTotal(dist: seq<(string, nat)>, level: string)
    ensures TotalCount(Bump(dist, level)) == TotalCount(dist) + 1
    decreases |dist|
  {
    if |dist| > 0 && dist[0].0 != level {
      BumpTotal(dist[1..], level);
      assert Bump(dist, level)[1..] == Bump(dist[1..], level);
    } else if |dist| > 0 {
      assert Bump(dist, level)[1..] == dist[1..];
    }
  }

  lemma {:induction false} BumpCount(dist: seq<(string, nat)>, level: string, other: string)
    requires LevelsDistinct(dist)
    ensures CountOf(Bump(dist, level), other) == CountOf(dist, other) + (if other == level then 1 else 0)
    decreases |dist|
  {
    if |dist| > 0 && dist[0].0 != level {
      BumpCount(dist[1..], level, other);
      assert Bump(dist, level)[1..] == Bump(dist[1..], level);
    } else if |dist| > 0 {
      assert Bump(dist, level)[1..] == dist[1..];
      if other != level {
        CountOfAbsent(dist[1..], level);
      }
    }
  }

  lemma {:induction false} CountOfAbsent(dist: seq<(string, nat)>, level: string)
    requires level !in KeySet(dist)
    ensures CountOf(dist, level) == 0
    decreases |dist|
  {
    if |dist| > 0 {
      CountOfAbsent(dist[1..], level);
    }
  }

  /** The distribution accounts for every analysis once, under its own level. */
  lemma {:induction false} DistributionCounts(levels: seq<string>, level: string)
    ensures LevelsDistinct(Distribution(levels))
    ensures TotalCount(Distribution(levels)) == |levels|
    ensures CountOf(Distribution(levels), level) == Occurrences(levels, level)
    decreases |levels|
  {
    if |levels| > 0 {
      var front := levels[..|levels| - 1];
      DistributionCounts(front, level);
      BumpKeys(Distribution(front), levels[|levels| - 1]);
      BumpTotal(Distribution(front), levels[|levels| - 1]);
      BumpCount(Distribution(front), levels[|levels| - 1], level);
    }
  }

  function Scores(es: seq<Entry>): (r: seq<real>)
    ensures |r| == |es| && forall k | 0 <= k < |es| :: r[k] == es[k].overall
  {
    if |es| == 0 then [] else Scores(es[..|es| - 1]) + [es[|es| - 1].overall]
  }

  function Durations(es: seq<Entry>): (r: seq<real>)
    ensures |r| == |es| && forall k | 0 <= k < |es| :: r[k] == es[k].durationMinutes
  {
    if |es| == 0 then [] else Durations(es[..|es| - 1]) + [es[|es| - 1].durationMinutes]
  }

  function Levels(es: seq<Entry>): (r: seq<string>)
    ensures |r| == |es| && forall k | 0 <= k < |es| :: r[k] == es[k].level
  {
    if |es| == 0 then [] else Levels(es[..|es| - 1]) + [es[|es| - 1].level]
  }

  datatype Statistics = Statistics(
    totalAnalyses: nat, averageScore: real, bestScore: real, totalDuration: real,
    distribution: seq<(string, nat)>, lastAnalysis: Option<string>)

  /** `get_statistics`, with the two `round(·, 1)` calls left out. */
  function GetStatistics(h: History): (s: Statistics)
    ensures |h.analyses| == 0 ==> s == Statistics(0, 0.0, 0.0, 0.0, [], None)
    ensures s.totalAnalyses == |h.analyses|
    ensures |h.analyses| > 0 ==> AverageOf(s.averageScore, Scores(h.analyses))
    ensures |h.analyses| > 0 ==> s.bestScore in Scores(h.analyses)
    ensures forall k | 0 <= k < |h.analyses| :: h.analyses[k].overall <= s.bestScore
    ensures |h.analyses| > 0 ==> s.lastAnalysis == Some(h.analyses[|h.analyses| - 1].date)
    ensures s.distribution == Distribution(Levels(h.analyses))
    ensures s.totalDuration == Sum(Durations(h.analyses))
  {
    if |h.analyses| == 0 then
      assert Durations(h.analyses) == [] && Levels(h.analyses) == [];
      Statistics(0, 0.0, 0.0, 0.0, [], None)
    else HistoryFigures(h.analyses)
  }

  /** The statistics of a non-empty history. */
  function HistoryFigures(es: seq<Entry>): (s: Statistics)
    requires |es| > 0
    ensures s.totalAnalyses == |es|
    ensures AverageOf(s.averageScore, Scores(es))
    ensures s.bestScore in Scores(es)
    ensures forall k | 0 <= k < |es| :: es[k].overall <= s.bestScore
    ensures s.lastAnalysis == Some(es[|es| - 1].date)
    ensures s.distribution == Distribution(Levels(es))
    ensures s.totalDuration == Sum(Durations(es))
  {
    var scores := Scores(es);
    var best := Largest(scores);
    assert forall k | 0 <= k < |es| :: es[k].overall == scores[k];
    Statistics(|es|, MeanOrZero(scores), best, Sum(Durations(es)), Distribution(Levels(es)), Some(es[|es| - 1].date))
  }

  /** The distribution sums to the number of analyses, and every level's
      count is its number of analyses. */
  lemma DistributionMatchesLevels(h: History, level: string)
    ensures TotalCount(GetStatistics(h).distribution) == |h.analyses|
    ensures CountOf(GetStatistics(h).distribution, level)
         == |set k: nat | k < |h.analyses| && h.analyses[k].level == level|
  {
    var levels := Levels(h.analyses);
    DistributionCounts(levels, level);
    OccurrencesAsSet(levels, level);
    assert PositionsOf(levels, level) == set k: nat | k < |h.analyses| && h.analyses[k].level == level;
  }

  /** The positions in `levels` holding `level`. */
  function PositionsOf(levels: seq<string>, level: string): (r: set<nat>)
    ensures forall k: nat :: k in r <==> k < |levels| && levels[k] == level
  {
    set k: nat | k < |levels| && levels[k] == level
  }

  lemma {:induction false} OccurrencesAsSet(levels: seq<string>, level: string)
    ensures Occurrences(levels, level) == |PositionsOf(levels, level)|
    decreases |levels|
  {
    if |levels| > 0 {
      var n := |levels| - 1;
      var front := levels[..n];
      OccurrencesAsSet(front, level);
      var before := PositionsOf(front, level);
      var all := PositionsOf(levels, level);
      assert n !in before;
      if levels[n] == level {
        assert all == before + {n};
      } else {
        assert all == before;
      }
    } else {
      assert PositionsOf(levels, level) == {};
    }
  }

  // ---------------------------------------------------------------------
  // Cleanup

  /** Whether an entry survives the cutoff. */
  predicate Recent(e: Entry, cutoff: real)
  {
    e.timestamp.Some? && e.timestamp.value >= cutoff
  }

  function KeepRecent(es: seq<Entry>, cutoff: real): (r: seq<Entry>)
    ensures |r| <= |es|
    ensures forall k | 0 <= k < |r| :: Recent(r[k], cutoff)
  {
    if |es| == 0 then []
    else KeepRecent(es[..|es| - 1], cutoff) + (if Recent(es[|es| - 1], cutoff) then [es[|es| - 1]] else [])
  }

  /** The first entry whose timestamp does not parse, or the length. */
  function FirstUnparsed(es: seq<Entry>): (i: nat)
    ensures i <= |es|
    ensures forall k | 0 <= k < i :: es[k].timestamp.Some?
    ensures i < |es| ==> es[i].timestamp.None?
  {
    if |es| == 0 then 0
    else if es[0].timestamp.None? then 0
    else FirstUnparsed(es[1..]) + 1
  }

  /** `list.remove`: drop the first element equal to `x`. */
  function RemoveFirst(s: seq<Entry>, x: Entry): (r: seq<Entry>)
    ensures x in s ==> |r| == |s| - 1
    ensures x !in s ==> r == s
  {
    if |s| == 0 then []
    else if s[0] == x then s[1..]
    else [s[0]] + RemoveFirst(s[1..], x)
  }

  /** The history after the scan has looked at the first `k` entries. */
  function Swept(es: seq<Entry>, k: nat, cutoff: real): seq<Entry>
    requires k <= |es|
  {
    KeepRecent(es[..k], cutoff) + es[k..]
  }

  /** `cleanup_old_reports(days)` at time `now`: the scan removes every
      entry older than the cutoff and answers how many went; an unparsable
      timestamp aborts the scan, keeps the removals made so far and answers
      zero.  The total is rewritten only when something was removed. */
  method CleanupOldReports(h: History, now: real, days: real) returns (h': History, removed: nat)
    ensures var cutoff := now - days * 86400.0;
            h'.analyses == Swept(h.analyses, FirstUnparsed(h.analyses), cutoff)
    ensures FirstUnparsed(h.analyses) < |h.analyses| ==> removed == 0 && h'.total == h.total
    ensures FirstUnparsed(h.analyses) == |h.analyses| ==> removed == |h.analyses| - |h'.analyses|
    ensures FirstUnparsed(h.analyses) == |h.analyses| && removed > 0 ==> h'.total == |h'.analyses|
    ensures removed == 0 ==> h'.total == h.total
  {
    var cutoff := now - days * 86400.0;
    var analyses, count, aborted := Sweep(h.analyses, cutoff);
    if aborted {
      h' := History(analyses, h.total);
      removed := 0;
    } else {
      removed := count;
      h' := History(analyses, if count > 0 then |analyses| else h.total);
    }
  }

  /** The scan of `cleanup_old_reports` over a copy of the entries: it stops
      at the first unparsable timestamp, and counts the entries it removes. */
  method Sweep(copy: seq<Entry>, cutoff: real) returns (analyses: seq<Entry>, count: nat, aborted: bool)
    ensures aborted <==> FirstUnparsed(copy) < |copy|
    ensures analyses == Swept(copy, FirstUnparsed(copy), cutoff)
    ensures !aborted ==> count + |analyses| == |copy|
  {
    analyses := copy;
    count := 0;
    var stop := FirstUnparsed(copy);
    assert copy[..0] == [] && copy[0..] == copy;
    for k := 0 to |copy|
      invariant k <= stop
      invariant analyses == Swept(copy, k, cutoff)
      invariant count + |KeepRecent(copy[..k], cutoff)| == k
    {
      var e := copy[k];
      if e.timestamp.None? {
        assert k == stop;
        aborted := true;
        return;
      }
      analyses, count := SweepEntry(copy, k, cutoff, analyses, count);
    }
    assert stop == |copy| && copy[..|copy|] == copy;
    aborted := false;
  }

  /** The loop body of the scan for a parsable entry: an old entry is
      removed from the working list and counted. */
  method SweepEntry(copy: seq<Entry>, k: nat, cutoff: real, analyses: seq<Entry>, count: nat)
    returns (analyses': seq<Entry>, count': nat)
    requires k < |copy| && copy[k].timestamp.Some?
    requires analyses == Swept(copy, k, cutoff)
    requires count + |KeepRecent(copy[..k], cutoff)| == k
    ensures analyses' == Swept(copy, k + 1, cutoff)
    ensures count' + |KeepRecent(copy[..k + 1], cutoff)| == k + 1
  {
    var e := copy[k];
    SweepStep(copy, k, cutoff);
    analyses', count' := analyses, count;
    if e.timestamp.value < cutoff {
      analyses' := RemoveFirst(analyses, e);
      count' := count + 1;
    }
  }

  /** One step of the scan: an old entry is removed where it stands, a recent one kept. */
  lemma SweepStep(es: seq<Entry>, k: nat, cutoff: real)
    requires k < |es| && es[k].timestamp.Some?
    ensures !Recent(es[k], cutoff) ==> RemoveFirst(Swept(es, k, cutoff), es[k]) == Swept(es, k + 1, cutoff)
    ensures Recent(es[k], cutoff) ==> Swept(es, k, cutoff) == Swept(es, k + 1, cutoff)
    ensures |KeepRecent(es[..k + 1], cutoff)| == |KeepRecent(es[..k], cutoff)| + (if Recent(es[k], cutoff) then 1 else 0)
  {
    assert es[..k + 1][..k] == es[..k];
    assert KeepRecent(es[..k + 1], cutoff)
        == KeepRecent(es[..k], cutoff) + (if Recent(es[k], cutoff) then [es[k]] else []);
    assert es[k..] == [es[k]] + es[k + 1..];
    if !Recent(es[k], cutoff) {
      RemoveFirstAfterKept(KeepRecent(es[..k], cutoff), es[k..], cutoff);
    }
  }

  /** Removing an old entry from the front of the unscanned part skips the kept prefix. */
  lemma {:induction false} RemoveFirstAfterKept(kept: seq<Entry>, rest: seq<Entry>, cutoff: real)
    requires |rest| > 0 && !Recent(rest[0], cutoff)
    requires forall k | 0 <= k < |kept| :: Recent(kept[k], cutoff)
    ensures RemoveFirst(kept + rest, rest[0]) == kept + rest[1..]
    decreases |kept|
  {
    var all := kept + rest;
    if |kept| == 0 {
      assert all == rest;
    } else {
      assert all[0] == kept[0] && Recent(kept[0], cutoff);
      assert all[0] != rest[0];
      assert all[1..] == kept[1..] + rest;
      assert RemoveFirst(all, rest[0]) == [kept[0]] + RemoveFirst(kept[1..] + rest, rest[0]);
      RemoveFirstAfterKept(kept[1..], rest, cutoff);
      assert kept + rest[1..] == [kept[0]] + (kept[1..] + rest[1..]);
    }
  }

  /** When every timestamp parses, an entry is kept exactly when it is not
      older than the cutoff. */
  lemma {:induction false} KeepRecentMembership(es: seq<Entry>, cutoff: real, e: Entry)
    ensures e in KeepRecent(es, cutoff) <==> e in es && Recent(e, cutoff)
    decreases |es|
  {
    if |es| > 0 {
      KeepRecentMembership(es[..|es| - 1], cutoff, e);
      assert es == es[..|es| - 1] + [es[|es| - 1]];
    }
  }

  // ---------------------------------------------------------------------
  // Id collisions

  /** Ids are numbered from the current length, so after a deletion a new
      report can reuse the id of one still present, and the latest report
      then resolves to the older entry. */
  lemma DuplicateIdAfterDelete(a: ReportData, b: ReportData, c: ReportData, clock: Clock)
    requires OrZero(b.overall) != OrZero(c.overall)
    ensures var h1 := AddReport(History([], 0), a, clock, true).0;
            var h2 := AddReport(h1, b, clock, true).0;
            var h3 := DeleteReport(h2, IdOf(1)).0;
            var h4 := AddReport(h3, c, clock, true).0;
            |h4.analyses| == 2 && h4.analyses[0].id == h4.analyses[1].id == IdOf(2) &&
            LatestReport(h4) == Some(h4.analyses[0]) &&
            LatestReport(h4).value.overall != h4.analyses[1].overall
  {
    var h1 := AddReport(History([], 0), a, clock, true).0;
    var h2 := AddReport(h1, b, clock, true).0;
    assert h2.analyses[0].id == IdOf(1);
    assert h2.analyses[1].id == IdOf(2);
    assert IdOf(1) != IdOf(2) by {
      if IdOf(1) == IdOf(2) {
        IdOfInjective(1, 2);
      }
    }
    var h3 := DeleteReport(h2, IdOf(1)).0;
    assert h3.analyses == [h2.analyses[1]];
    var h4 := AddReport(h3, c, clock, true).0;
    assert h4.analyses == [h2.analyses[1], NewEntry(2, c, clock)];
  }

  /** The history with a counter of ids ever issued, so that ids never repeat. */
  datatype Ledger = Ledger(history: History, issued: nat)

  /** No entry carries an id numbered above the counter, and ids are distinct. */
  ghost predicate Sound(l: Ledger)
  {
    IdsDistinct(l.history.analyses) &&
    forall k, n | 0 <= k < |l.history.analyses| && n > l.issued :: l.history.analyses[k].id != IdOf(n)
  }

  /** `add_report` numbering from the counter instead of the length. */
  function AddReportFresh(l: Ledger, data: ReportData, clock: Clock, writeOk: bool): (r: (Ledger, Option<Entry>))
    ensures r.0.issued == l.issued + 1
    ensures r.0.history.analyses == l.history.analyses + [NewEntry(l.issued + 1, data, clock)]
    ensures r.0.history.total == |r.0.history.analyses|
    ensures writeOk <==> r.1.Some?
  {
    var e := NewEntry(l.issued + 1, data, clock);
    var analyses := l.history.analyses + [e];
    (Ledger(History(analyses, |analyses|), l.issued + 1), if writeOk then Some(e) else None)
  }

  /** Adding a report numbered from the counter keeps every id distinct. */
  lemma AddFreshKeepsSound(l: Ledger, data: ReportData, clock: Clock, writeOk: bool)
    requires Sound(l)
    ensures Sound(AddReportFresh(l, data, clock, writeOk).0)
  {
    var l' := AddReportFresh(l, data, clock, writeOk).0;
    var s := l.history.analyses;
    var es := l'.history.analyses;
    var newId := IdOf(l.issued + 1);
    assert |es| == |s| + 1 && es[|s|].id == newId;
    assert forall k | 0 <= k < |s| :: es[k].id == s[k].id;
    assert forall k | 0 <= k < |s| :: s[k].id != newId;
    forall k, n | 0 <= k < |es| && n > l'.issued
      ensures es[k].id != IdOf(n)
    {
      if k == |s| && es[k].id == IdOf(n) {
        IdOfInjective(l.issued + 1, n);
      }
    }
  }

  /** Deleting a report keeps every id distinct. */
  lemma DeleteKeepsSound(l: Ledger, id: string)
    requires Sound(l)
    ensures Sound(Ledger(DeleteReport(l.history, id).0, l.issued))
  {
    var d := DeleteReport(l.history, id);
    if d.1 {
      var i := FirstWithId(l.history.analyses, id).value;
      var s := l.history.analyses;
      var t := d.0.analyses;
      assert forall k | 0 <= k < |t| :: t[k].id == s[if k < i then k else k + 1].id;
    }
  }

  /** Adding and deleting keep every id distinct, so the latest report is always the last entry. */
  lemma FreshIdsStayDistinct(l: Ledger, data: ReportData, clock: Clock, writeOk: bool, id: string)
    requires Sound(l)
    ensures Sound(AddReportFresh(l, data, clock, writeOk).0)
    ensures Sound(Ledger(DeleteReport(l.history, id).0, l.issued))
  {
    AddFreshKeepsSound(l, data, clock, writeOk);
    DeleteKeepsSound(l, id);
  }
}
