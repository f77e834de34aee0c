/** The home screen's scenario suggestion and "Explore More" list (components/HomePage.tsx). */
module Home {
  import opened Wrappers
  import opened Profiles
  import opened Reports
  import opened ScenarioCatalogue

  /** `getTargetCefrLevels`: the CEFR bands suited to a user level. */
  function TargetCefrLevels(level: int): seq<Cefr>
  {
    if level <= 2 then [A1]
    else if level <= 4 then [A1, A2]
    else if level <= 6 then [A2, B1]
    else if level <= 8 then [B1, B2]
    else [B2, C1]
  }

  /** The band list is never empty, spans at most two neighbouring bands, and moves
    * towards harder bands as the level grows. */
  lemma TargetCefrLevelsShape(level: int, higher: int)
    requires level <= higher
    ensures 1 <= |TargetCefrLevels(level)| <= 2
    ensures |TargetCefrLevels(level)| == 2 ==>
              TargetCefrLevels(level)[1].Rank() == TargetCefrLevels(level)[0].Rank() + 1
    ensures TargetCefrLevels(level)[0].Rank() <= TargetCefrLevels(higher)[0].Rank()
    ensures TargetCefrLevels(level)[|TargetCefrLevels(level)| - 1].Rank() <=
            TargetCefrLevels(higher)[|TargetCefrLevels(higher)| - 1].Rank()
  {
  }

  predicate OfferedTo(s: Scenario, track: Track) {
    s.audience == Only(track) || s.audience == Everyone
  }

  /** A scenario may be suggested: right track, right band, not an exam, not the freestyle chat. */
  predicate IsCandidate(s: Scenario, track: Track, level: int) {
    OfferedTo(s, track) && s.difficulty in TargetCefrLevels(level) &&
    !s.isExamPrep && s.id != FreestyleId
  }

  function Candidates(track: Track, level: int): seq<Scenario> {
    Filter(Scenarios, s => IsCandidate(s, track, level))
  }

  /** `xs.slice(-n)`: the last `n` elements, or all of them when there are fewer. */
  function LastN<T>(xs: seq<T>, n: nat): (r: seq<T>)
    ensures |r| == if |xs| < n then |xs| else n
    ensures r == xs[|xs| - |r|..]
  {
    if |xs| <= n then xs else xs[|xs| - n..]
  }

  /** The scenario ids of the five most recent reports; a report without one contributes `undefined`. */
  function RecentScenarioIds(reports: seq<Report>): seq<Option<string>> {
    var recent := LastN(reports, 5);
    seq(|recent|, i requires 0 <= i < |recent| => recent[i].scenarioId)
  }

  /** The candidates whose id is not among the recent ones. */
  function Unplayed(candidates: seq<Scenario>, reports: seq<Report>): seq<Scenario> {
    var recent := RecentScenarioIds(reports);
    Filter(candidates, (s: Scenario) => Some(s.id) !in recent)
  }

  function FreshCandidates(track: Track, level: int, reports: seq<Report>): seq<Scenario> {
    Unplayed(Candidates(track, level), reports)
  }

  /** A scenario is left out exactly when one of the last five reports names it. */
  lemma {:induction false} UnplayedExcludesExactlyRecent(candidates: seq<Scenario>, reports: seq<Report>, s: Scenario)
    ensures s in Unplayed(candidates, reports) <==>
            s in candidates && forall r :: r in LastN(reports, 5) ==> r.scenarioId != Some(s.id)
  {
    var recent := LastN(reports, 5);
    var ids := RecentScenarioIds(reports);
    if exists r :: r in recent && r.scenarioId == Some(s.id) {
      var r :| r in recent && r.scenarioId == Some(s.id);
      var k :| 0 <= k < |recent| && recent[k] == r;
      assert ids[k] == Some(s.id);
    }
  }

  /** Fresh candidates are exactly the candidates not played in the last five sessions. */
  lemma FreshExcludesExactlyRecent(track: Track, level: int, reports: seq<Report>, s: Scenario)
    ensures s in FreshCandidates(track, level, reports) <==>
            s in Candidates(track, level) &&
            forall r :: r in LastN(reports, 5) ==> r.scenarioId != Some(s.id)
  {
    UnplayedExcludesExactlyRecent(Candidates(track, level), reports, s);
  }

  /** The pool drawn from: the fresh candidates, or all candidates when every one was recent. */
  function Pool(track: Track, level: int, reports: seq<Report>): seq<Scenario> {
    var unplayed := FreshCandidates(track, level, reports);
    if |unplayed| > 0 then unplayed else Candidates(track, level)
  }

  /** `getNewSuggestion`: a scenario drawn from the pool at an index the random source picks
    * (any index may come up), or the bakery scenario when the pool is empty. */
  method GetNewSuggestion(track: Track, level: int, reports: seq<Report>) returns (s: Scenario)
    ensures s in Scenarios
    ensures |Pool(track, level, reports)| > 0 ==> s in Pool(track, level, reports)
    ensures |Pool(track, level, reports)| == 0 ==> s.id == BakeryId
    ensures s.id != FreestyleId && !s.isExamPrep
    ensures |FreshCandidates(track, level, reports)| > 0 ==>
              s in Candidates(track, level) && Some(s.id) !in RecentScenarioIds(reports)
  {
    var pool := Pool(track, level, reports);
    if |pool| > 0 {
      var k :| 0 <= k < |pool|;
      s := pool[k];
      PoolMember(track, level, reports, s);
    } else {
      BakeryExists();
      var bakery := FindById(Scenarios, BakeryId);
      s := bakery.value;
    }
  }

  /** Whatever the pool holds is a suitable scenario of the table, and an unplayed one when
    * any candidate was unplayed. */
  lemma PoolMember(track: Track, level: int, reports: seq<Report>, s: Scenario)
    requires s in Pool(track, level, reports)
    ensures s in Scenarios && s in Candidates(track, level) && IsCandidate(s, track, level)
    ensures |FreshCandidates(track, level, reports)| > 0 ==> Some(s.id) !in RecentScenarioIds(reports)
  {
  }

  /** The fallback is reachable: nothing in the table suits an academic learner below level 3,
    * so the suggestion becomes the general-track bakery scenario. */
  lemma AcademicBeginnerFallsBack(reports: seq<Report>)
    ensures Candidates(Academic, 1) == []
    ensures Pool(Academic, 1, reports) == []
  {
    forall i | 0 <= i < |Scenarios| ensures !IsCandidate(Scenarios[i], Academic, 1) {
      if i == 0 {
        assert Scenarios[0].id == FreestyleId;
      } else {
        assert Scenarios[i].difficulty != A1 || Scenarios[i].audience == Only(General);
      }
    }
    NoneMatch(Scenarios, s => IsCandidate(s, Academic, 1));
  }

  lemma {:induction false} NoneMatch(xs: seq<Scenario>, p: Scenario -> bool)
    requires forall i :: 0 <= i < |xs| ==> !p(xs[i])
    ensures Filter(xs, p) == []
  {
    if xs != [] {
      NoneMatch(xs[1..], p);
    }
  }

  /** A scenario the "Explore More" list may show: not the freestyle chat, and offered to
    * the user's track. */
  predicate Explorable(s: Scenario, track: Track) {
    s.id != FreestyleId && OfferedTo(s, track)
  }

  /** Every explorable scenario of `table`, in table order. */
  function ExplorableIn(table: seq<Scenario>, track: Track): seq<Scenario> {
    Filter(table, (s: Scenario) => Explorable(s, track))
  }

  /** The "Explore More" list: the first four explorable scenarios of the table, or all of
    * them when there are fewer. */
  function ExploreScenarios(track: Track): (r: seq<Scenario>)
    ensures |r| <= 4
    ensures forall s :: s in r ==> s in Scenarios && s.id != FreestyleId && OfferedTo(s, track)
    ensures IsSubsequence(r, Scenarios)
    ensures r <= ExplorableIn(Scenarios, track)
    ensures |r| == if |ExplorableIn(Scenarios, track)| < 4 then |ExplorableIn(Scenarios, track)| else 4
  {
    FirstFour(Scenarios, track)
  }

  function FirstFour(table: seq<Scenario>, track: Track): (r: seq<Scenario>)
    ensures |r| <= 4
    ensures forall s :: s in r ==> s in table && s.id != FreestyleId && OfferedTo(s, track)
    ensures IsSubsequence(r, table)
    ensures r <= ExplorableIn(table, track)
    ensures |r| == if |ExplorableIn(table, track)| < 4 then |ExplorableIn(table, track)| else 4
  {
    var matching := ExplorableIn(table, track);
    var n := if |matching| < 4 then |matching| else 4;
    SubsequencePrefix(matching, table, n);
    assert forall s :: s in matching[..n] ==> s in matching;
    matching[..n]
  }
}
