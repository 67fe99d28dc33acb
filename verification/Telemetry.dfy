/** Telemetry: the chart's sliding window and the hot-temperature rule. */
module Telemetry {
  import opened Wrappers

  /** A reading, with the time it was recorded at in milliseconds. */
  datatype Reading = Reading(recordedAt: int, temperature: real)

  const HOT_TEMPERATURE_THRESHOLD_C := 80.0
  const CONSECUTIVE_HOT_READINGS_REQUIRED := 3

  // ---- The sliding window ----

  function LastN(s: seq<Reading>, n: nat): seq<Reading> {
    if |s| > n then s[|s| - n..] else s
  }

  function MergeLatest(series: seq<Reading>, latest: Option<Reading>, limit: nat): seq<Reading> {
    if latest == None then series
    else if series == [] || latest.value.recordedAt > series[|series| - 1].recordedAt then
      LastN(series + [latest.value], limit)
    else series
  }

  /** The series after every poll of a stream; a poll may have no reading. */
  function Window(polls: seq<Option<Reading>>, limit: nat): seq<Reading> {
    if polls == [] then []
    else MergeLatest(Window(polls[..|polls| - 1], limit), polls[|polls| - 1], limit)
  }

  predicate NewerThanAll(r: Reading, polls: seq<Option<Reading>>) {
    forall i :: 0 <= i < |polls| && polls[i].Some? ==> r.recordedAt > polls[i].value.recordedAt
  }

  /** The readings that were newer than everything polled before them. */
  function RecordHighs(polls: seq<Option<Reading>>): seq<Reading> {
    if polls == [] then []
    else
      var earlier, last := polls[..|polls| - 1], polls[|polls| - 1];
      if last.Some? && NewerThanAll(last.value, earlier) then RecordHighs(earlier) + [last.value]
      else RecordHighs(earlier)
  }

  lemma NewerThanAllAppend(r: Reading, polls: seq<Option<Reading>>)
    requires polls != []
    ensures var last := polls[|polls| - 1];
            NewerThanAll(r, polls) <==>
              NewerThanAll(r, polls[..|polls| - 1]) && (last.Some? ==> r.recordedAt > last.value.recordedAt)
  {
  }

  /** To be newer than the whole stream is to be newer than its last record high. */
  lemma {:induction false} LastRecordIsNewest(polls: seq<Option<Reading>>, r: Reading)
    ensures var highs := RecordHighs(polls);
            NewerThanAll(r, polls) <==> highs == [] || r.recordedAt > highs[|highs| - 1].recordedAt
  {
    if polls != [] {
      var earlier, last := polls[..|polls| - 1], polls[|polls| - 1];
      NewerThanAllAppend(r, polls);
      LastRecordIsNewest(earlier, r);
      if last.Some? {
        LastRecordIsNewest(earlier, last.value);
      }
      hide NewerThanAll;
    }
  }

  /** Record highs are strictly increasing in time. */
  lemma {:induction false} RecordHighsIncrease(polls: seq<Option<Reading>>)
    ensures var highs := RecordHighs(polls);
            forall i, j :: 0 <= i < j < |highs| ==> highs[i].recordedAt < highs[j].recordedAt
  {
    if polls != [] {
      var earlier, last := polls[..|polls| - 1], polls[|polls| - 1];
      RecordHighsIncrease(earlier);
      if last.Some? {
        LastRecordIsNewest(earlier, last.value);
      }
      hide NewerThanAll;
    }
  }

  lemma AppendToLast(highs: seq<Reading>, r: Reading, limit: nat)
    requires limit >= 1
    ensures LastN(LastN(highs, limit) + [r], limit) == LastN(highs + [r], limit)
    ensures LastN(highs, limit) == [] <==> highs == []
  {
  }

  /** Merging into the last readings of a list keeps the last readings of the longer list. */
  lemma MergeIntoLast(highs: seq<Reading>, r: Reading, limit: nat)
    requires limit >= 1
    ensures MergeLatest(LastN(highs, limit), Some(r), limit) ==
            LastN(if highs == [] || r.recordedAt > highs[|highs| - 1].recordedAt then highs + [r] else highs, limit)
  {
    var series := LastN(highs, limit);
    if highs != [] {
      assert series[|series| - 1] == highs[|highs| - 1];
    }
    AppendToLast(highs, r, limit);
    hide LastN;
  }

  lemma LastNIsSuffix(s: seq<Reading>, n: nat)
    ensures var k := if |s| < n then |s| else n; LastN(s, n) == s[|s| - k..]
  {
  }

  /** In plain terms: a window of min(limit, records) readings, the last ones of the record highs. */
  lemma WindowIsSuffix(polls: seq<Option<Reading>>, limit: nat)
    requires limit >= 1
    ensures var highs, window := RecordHighs(polls), Window(polls, limit);
            && |window| == (if |highs| < limit then |highs| else limit)
            && window == highs[|highs| - |window|..]
  {
    WindowShowsRecordHighs(polls, limit);
    LastNIsSuffix(RecordHighs(polls), limit);
  }

  /** A poll enters the record highs exactly if it has a reading newer than every reading before it. */
  lemma RecordHighsAppend(polls: seq<Option<Reading>>, poll: Option<Reading>)
    ensures RecordHighs(polls + [poll]) == RecordHighs(polls) +
              if poll.Some? && (forall i :: 0 <= i < |polls| && polls[i].Some? ==>
                                  poll.value.recordedAt > polls[i].value.recordedAt)
              then [poll.value] else []
  {
    assert (polls + [poll])[..|polls + [poll]| - 1] == polls;
  }

  /** Merging polls one at a time shows the last `limit` readings of the stream's record highs. */
  lemma {:induction false} WindowShowsRecordHighs(polls: seq<Option<Reading>>, limit: nat)
    requires limit >= 1
    ensures Window(polls, limit) == LastN(RecordHighs(polls), limit)
  {
    if polls != [] {
      hide NewerThanAll, LastN, MergeLatest;
      var earlier, last := polls[..|polls| - 1], polls[|polls| - 1];
      WindowShowsRecordHighs(earlier, limit);
      if last.Some? {
        LastRecordIsNewest(earlier, last.value);
        MergeIntoLast(RecordHighs(earlier), last.value, limit);
      } else {
        NoReading(Window(earlier, limit), limit);
      }
    }
  }

  lemma NoReading(series: seq<Reading>, limit: nat)
    ensures MergeLatest(series, None, limit) == series
  {
  }

  // ---- The hot-temperature rule ----

  predicate IsHot(r: Reading) {
    r.temperature > HOT_TEMPERATURE_THRESHOLD_C
  }

  predicate TripsHotTemperatureRule(newestFirst: seq<Reading>) {
    && |newestFirst| >= CONSECUTIVE_HOT_READINGS_REQUIRED
    && forall r :: r in newestFirst[..CONSECUTIVE_HOT_READINGS_REQUIRED] ==> IsHot(r)
  }

  function Reverse(s: seq<Reading>): seq<Reading> {
    if s == [] then [] else [s[|s| - 1]] + Reverse(s[..|s| - 1])
  }

  /** What the query returns: the newest three of the readings ingested so far, newest first. */
  function Recent(ingested: seq<Reading>): seq<Reading> {
    Reverse(LastN(ingested, CONSECUTIVE_HOT_READINGS_REQUIRED))
  }

  /** A counter that goes up on a hot reading and back to zero on any other. */
  function Streak(ingested: seq<Reading>): nat {
    if ingested == [] then 0
    else if IsHot(ingested[|ingested| - 1]) then Streak(ingested[..|ingested| - 1]) + 1
    else 0
  }

  lemma ReverseThree(s: seq<Reading>)
    requires |s| == 3
    ensures Reverse(s) == [s[2], s[1], s[0]]
  {
    var t := s[..2];
    var u := t[..1];
    assert s[..|s| - 1] == t && t[..|t| - 1] == u && u[..|u| - 1] == [];
    assert Reverse(u) == [s[0]] + Reverse([]);
    assert Reverse(t) == [s[1]] + Reverse(u);
  }

  lemma {:induction false} ReverseLength(s: seq<Reading>)
    ensures |Reverse(s)| == |s|
  {
    if s != [] {
      ReverseLength(s[..|s| - 1]);
    }
  }

  lemma {:induction false} StreakIsShort(ingested: seq<Reading>)
    ensures Streak(ingested) <= |ingested|
  {
    if ingested != [] {
      StreakIsShort(ingested[..|ingested| - 1]);
    }
  }

  lemma StreakStep(ingested: seq<Reading>, n: nat)
    requires 0 < n <= |ingested|
    ensures Streak(ingested[..n]) == if IsHot(ingested[n - 1]) then Streak(ingested[..n - 1]) + 1 else 0
  {
    assert ingested[..n][..|ingested[..n]| - 1] == ingested[..n - 1];
  }

  /** The rule trips exactly when the current streak is at least three. */
  lemma RuleIsStreak(ingested: seq<Reading>)
    ensures TripsHotTemperatureRule(Recent(ingested)) <==> Streak(ingested) >= CONSECUTIVE_HOT_READINGS_REQUIRED
  {
    var n := |ingested|;
    if n < 3 {
      ReverseLength(ingested);
      StreakIsShort(ingested);
    } else {
      var recent := Recent(ingested);
      ReverseThree(ingested[n - 3..]);
      assert recent == [ingested[n - 1], ingested[n - 2], ingested[n - 3]];
      assert recent[..3] == recent;
      assert recent[0] in recent && recent[1] in recent && recent[2] in recent;
      assert ingested[..n] == ingested;
      StreakStep(ingested, n);
      StreakStep(ingested, n - 1);
      StreakStep(ingested, n - 2);
      hide Streak;
    }
  }

  /** In degrees: the rule trips exactly when the last three readings ingested are above 80. */
  lemma RuleInDegrees(ingested: seq<Reading>)
    ensures var n := |ingested|;
            TripsHotTemperatureRule(Recent(ingested)) <==>
              && n >= 3
              && ingested[n - 1].temperature > 80.0 && ingested[n - 2].temperature > 80.0
              && ingested[n - 3].temperature > 80.0
  {
    var n := |ingested|;
    RuleIsStreak(ingested);
    StreakIsShort(ingested);
    if n >= 3 {
      assert ingested[..n] == ingested;
      StreakStep(ingested, n);
      StreakStep(ingested, n - 1);
      StreakStep(ingested, n - 2);
    }
    hide Streak, TripsHotTemperatureRule, Recent;
  }
}
