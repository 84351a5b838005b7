/** `generateRecommendations` and `generateRecommendedClasses` put together: the object the
    results page shows. */
module Engine {
  import opened Answers
  import opened Collections
  import Catalog
  import Scoring
  import Ranking
  import Descriptions
  import Tips

  datatype Recommendation = Recommendation(
    primaryGoal: string,
    schedule: string,
    workoutTypes: string,
    recommendedClasses: seq<Catalog.ClassEntry>,
    duration: string,
    keyRecommendations: seq<string>)

  /** `topClasses.map(classKey => allClasses[classKey])`: the recommended catalog entries,
      best first. At most six are returned, each with a positive score, in non-increasing
      score order. */
  function RecommendedClasses(a: AnswerSet): (r: seq<Catalog.ClassEntry>)
    ensures |r| <= Ranking.MaxClasses
    ensures forall k :: 0 <= k < |r| ==> r[k] in Catalog.Classes && Scoring.Score(a, r[k].categories) > 0
    ensures forall i, j :: 0 <= i < j < |r| ==>
              Scoring.Score(a, r[i].categories) >= Scoring.Score(a, r[j].categories)
  {
    var sc := Scoring.Scores(a);
    var top := Ranking.TopPositions(sc);
    Ranking.TopIsRankedPrefix(sc);
    var r := EntriesAt(top);
    EntriesScored(a, sc, top, r);
    r
  }

  /** The entries at ranked positive-scoring positions carry positive, non-increasing
      scores. */
  lemma EntriesScored(a: AnswerSet, sc: seq<int>, top: seq<nat>, r: seq<Catalog.ClassEntry>)
    requires sc == Scoring.Scores(a)
    requires Ranking.Ranked(sc, top) && forall k :: 0 <= k < |top| ==> sc[top[k]] > 0
    requires |r| == |top| && forall k :: 0 <= k < |top| ==> r[k] == Catalog.Classes[top[k]]
    ensures forall k :: 0 <= k < |r| ==> r[k] in Catalog.Classes && Scoring.Score(a, r[k].categories) > 0
    ensures forall i, j :: 0 <= i < j < |r| ==>
              Scoring.Score(a, r[i].categories) >= Scoring.Score(a, r[j].categories)
  {
  }

  /** The entries at the given catalog positions. */
  function EntriesAt(s: seq<nat>): (r: seq<Catalog.ClassEntry>)
    requires forall k :: 0 <= k < |s| ==> s[k] < |Catalog.Classes|
    ensures |r| == |s| && forall k :: 0 <= k < |s| ==> r[k] == Catalog.Classes[s[k]]
  {
    seq(|s|, k requires 0 <= k < |s| => Catalog.Classes[s[k]])
  }

  /** `generateRecommendedClasses`: the scoring loop, then sort, cut to six, drop the
      non-positive and map the keys back to their entries. */
  method GenerateRecommendedClasses(a: AnswerSet) returns (classes: seq<Catalog.ClassEntry>)
    ensures classes == RecommendedClasses(a)
    ensures |classes| <= Ranking.MaxClasses
  {
    var scores := Scoring.ComputeScores(a);
    assert scores == Scoring.Scores(a);
    var sortedClasses := Ranking.Sorted(scores);
    var topClasses := Ranking.FilterPositive(scores, Take(sortedClasses, Ranking.MaxClasses));
    classes := EntriesAt(topClasses);
  }

  /** The specification of the whole page: every field from its own rule. */
  function Recommendations(a: AnswerSet): Recommendation
  {
    Recommendation(
      Descriptions.GoalSummary(a.primaryGoal, a.motivation),
      Descriptions.ScheduleText(a.daysPerWeek),
      Descriptions.WorkoutTypes(a.primaryGoal),
      RecommendedClasses(a),
      Descriptions.DurationText(a.timeAvailability),
      Tips.KeyRecommendations(Tips.Rules, a))
  }

  /** `generateRecommendations`: the lookups, the workout-type union for an array of goals,
      the ranked classes and the first four tips. */
  method GenerateRecommendations(a: AnswerSet) returns (rec: Recommendation)
    ensures rec == Recommendations(a)
    ensures |rec.recommendedClasses| <= Ranking.MaxClasses
    ensures |rec.keyRecommendations| <= Tips.MaxRecommendations
  {
    var primaryGoal := Descriptions.GoalSummary(a.primaryGoal, a.motivation);
    var schedule := Descriptions.ScheduleText(a.daysPerWeek);
    var workoutTypes := Descriptions.ResolveWorkoutTypes(a.primaryGoal);
    var classes := GenerateRecommendedClasses(a);
    var duration := Descriptions.DurationText(a.timeAvailability);
    var keyRecs := Tips.CollectKeyRecommendations(Tips.Rules, a);
    rec := Recommendation(primaryGoal, schedule, workoutTypes, classes, duration, keyRecs);
  }

  // ----- properties of the class list -----

  /** The recommended classes are the leading entries of the stable descending sort that
      have a positive score: a class is recommended exactly when it scores above 0 and
      fewer than six classes outrank it, and ties keep catalog order. */
  lemma RecommendedAreTopRanked(a: AnswerSet)
    ensures var top := Ranking.TopPositions(Scoring.Scores(a));
            RecommendedClasses(a) == EntriesAt(top)
            && Ranking.Ranked(Scoring.Scores(a), top)
            && top == Ranking.Sorted(Scoring.Scores(a))[..|top|]
    ensures forall p :: 0 <= p < |Catalog.Classes| ==>
              (p in Ranking.TopPositions(Scoring.Scores(a))
               <==> Scoring.Scores(a)[p] > 0 && Ranking.Outranking(Scoring.Scores(a), p) < Ranking.MaxClasses)
  {
    var sc := Scoring.Scores(a);
    Ranking.TopIsRankedPrefix(sc);
    forall p | 0 <= p < |Catalog.Classes|
      ensures p in Ranking.TopPositions(sc) <==> sc[p] > 0 && Ranking.Outranking(sc, p) < Ranking.MaxClasses
    {
      Ranking.TopMembership(sc, p);
    }
  }

  /** The training style never changes the order classes are sorted in. */
  lemma TrainingStyleKeepsOrder(a: AnswerSet, style: Answer)
    ensures Ranking.Sorted(Scoring.Scores(a.(trainingStyle := style))) == Ranking.Sorted(Scoring.Scores(a))
  {
    var d := Scoring.StylePoints(style) - Scoring.StylePoints(a.trainingStyle);
    Scoring.StyleShiftsAllScores(a, style);
    Ranking.ShiftKeepsOrder(Scoring.Scores(a), Scoring.Scores(a.(trainingStyle := style)), d);
  }

  /** A style with a larger bonus can only lengthen the list: the classes recommended under
      the smaller bonus come first, in the same order. */
  lemma LargerStyleBonusExtends(a: AnswerSet, style: Answer)
    requires Scoring.StylePoints(a.trainingStyle) <= Scoring.StylePoints(style)
    ensures |RecommendedClasses(a)| <= |RecommendedClasses(a.(trainingStyle := style))|
    ensures RecommendedClasses(a) == RecommendedClasses(a.(trainingStyle := style))[..|RecommendedClasses(a)|]
  {
    var b := a.(trainingStyle := style);
    var d := Scoring.StylePoints(style) - Scoring.StylePoints(a.trainingStyle);
    Scoring.StyleShiftsAllScores(a, style);
    var sc1 := Scoring.Scores(a);
    var sc2 := Scoring.Scores(b);
    Ranking.RaiseExtendsTop(sc1, sc2, d);
    var t1 := Ranking.TopPositions(sc1);
    var t2 := Ranking.TopPositions(sc2);
    assert RecommendedClasses(a) == EntriesAt(t1);
    assert RecommendedClasses(b) == EntriesAt(t2);
    assert EntriesAt(t1) == EntriesAt(t2)[..|t1|];
  }

  /** An array-valued goal or motivation recommends the same classes as no answer: each on
      its own, and both together. */
  lemma ArrayAnswersSameClasses(a: AnswerSet, goals: seq<string>, motives: seq<string>)
    ensures RecommendedClasses(a.(primaryGoal := Multi(goals)))
            == RecommendedClasses(a.(primaryGoal := Absent))
    ensures RecommendedClasses(a.(motivation := Multi(motives)))
            == RecommendedClasses(a.(motivation := Absent))
    ensures RecommendedClasses(a.(primaryGoal := Multi(goals), motivation := Multi(motives)))
            == RecommendedClasses(a.(primaryGoal := Absent, motivation := Absent))
  {
    var g1, g0 := a.(primaryGoal := Multi(goals)), a.(primaryGoal := Absent);
    var m1, m0 := a.(motivation := Multi(motives)), a.(motivation := Absent);
    var b1 := a.(primaryGoal := Multi(goals), motivation := Multi(motives));
    var b0 := a.(primaryGoal := Absent, motivation := Absent);
    forall i | 0 <= i < |Catalog.Classes|
      ensures Scoring.Scores(g1)[i] == Scoring.Scores(g0)[i]
      ensures Scoring.Scores(m1)[i] == Scoring.Scores(m0)[i]
      ensures Scoring.Scores(b1)[i] == Scoring.Scores(b0)[i]
    {
      Scoring.ArrayAnswersScoreNothing(a, goals, motives, Catalog.Classes[i].categories);
    }
    assert Scoring.Scores(g1) == Scoring.Scores(g0);
    assert Scoring.Scores(m1) == Scoring.Scores(m0);
    assert Scoring.Scores(b1) == Scoring.Scores(b0);
  }

  /** When every class scores the same, the stable sort keeps catalog order. */
  lemma EqualScoresKeepCatalogOrder(sc: seq<int>)
    requires forall p, q :: 0 <= p < q < |sc| ==> sc[p] == sc[q]
    ensures Ranking.Sorted(sc) == Ranking.Positions(|sc|)
  {
    var ps := Ranking.Positions(|sc|);
    assert Ranking.Ranked(sc, ps);
    Ranking.AnyStableSortAgrees(sc, ps);
  }

  /** With only the style answered, as "coach_led", every class gets the same positive
      bonus, so the first six catalog classes are recommended. */
  lemma CoachLedAloneTakesFirstSix(a: AnswerSet)
    requires Scoring.OnlyStyleScores(a) && Is(a.trainingStyle, "coach_led")
    ensures RecommendedClasses(a) == Catalog.Classes[..6]
  {
    var sc := Scoring.Scores(a);
    Scoring.StyleAloneScores(a);
    EqualPositiveTakesFirstSix(sc, Scoring.StylePoints(a.trainingStyle));
    assert RecommendedClasses(a) == EntriesAt(Ranking.Positions(|sc|)[..6]);
  }

  /** Equal positive scores over at least six positions keep the first six. */
  lemma EqualPositiveTakesFirstSix(sc: seq<int>, c: int)
    requires |sc| >= Ranking.MaxClasses && c > 0
    requires forall i :: 0 <= i < |sc| ==> sc[i] == c
    ensures Ranking.TopPositions(sc) == Ranking.Positions(|sc|)[..6]
  {
    EqualScoresKeepCatalogOrder(sc);
    TakeInCatalogOrder(sc);
    FirstPositionsPositive(sc, c);
  }

  /** When the sorted keys are in catalog order, the cut to six keeps the first six positions. */
  lemma TakeInCatalogOrder(sc: seq<int>)
    requires |sc| >= Ranking.MaxClasses && Ranking.Sorted(sc) == Ranking.Positions(|sc|)
    ensures Take(Ranking.Sorted(sc), Ranking.MaxClasses) == Ranking.Positions(|sc|)[..6]
  {
  }

  /** Equal positive scores let every one of the first six positions through the filter. */
  lemma FirstPositionsPositive(sc: seq<int>, c: int)
    requires |sc| >= Ranking.MaxClasses && c > 0
    requires forall i :: 0 <= i < |sc| ==> sc[i] == c
    ensures Ranking.FilterPositive(sc, Ranking.Positions(|sc|)[..6]) == Ranking.Positions(|sc|)[..6]
  {
    var first := Ranking.Positions(|sc|)[..6];
    assert Ranking.InRange(sc, first);
    PositiveFilterKeepsAll(sc, first);
  }

  /** With only the style answered, as "gym_alone", every class scores -1 and none is
      recommended. */
  lemma GymAloneRecommendsNothing(a: AnswerSet)
    requires Scoring.OnlyStyleScores(a) && Is(a.trainingStyle, "gym_alone")
    ensures RecommendedClasses(a) == []
  {
    Scoring.StyleAloneScores(a);
    Ranking.NoPositiveNoTop(Scoring.Scores(a));
  }

  lemma {:induction false} PositiveFilterKeepsAll(sc: seq<int>, s: seq<nat>)
    requires Ranking.InRange(sc, s)
    requires forall k :: 0 <= k < |s| ==> sc[s[k]] > 0
    ensures Ranking.FilterPositive(sc, s) == s
  {
    if s != [] {
      assert Ranking.InRange(sc, s[1..]);
      PositiveFilterKeepsAll(sc, s[1..]);
    }
  }

  /** With nothing answered every class scores 0 and none is recommended. */
  lemma NothingAnsweredNoClasses(a: AnswerSet)
    requires Scoring.OnlyStyleScores(a) && a.trainingStyle == Absent
    ensures RecommendedClasses(a) == []
  {
    Scoring.StyleAloneScores(a);
    Ranking.NoPositiveNoTop(Scoring.Scores(a));
  }
}
