/** The per-class relevance score of `generateRecommendedClasses`: an integer that starts at
    0 and collects one independent contribution per answered criterion. */
module Scoring {
  import opened Answers
  import Catalog

  /** `points` when the class carries `tag` (`categories.includes(tag)`), otherwise 0. */
  function Bonus(tags: seq<string>, tag: string, points: int): int
  {
    if tag in tags then points else 0
  }

  function FitnessPoints(level: Answer, tags: seq<string>): int
  {
    if Is(level, "beginner") then
      Bonus(tags, "beginner_friendly", 3) + Bonus(tags, "advanced", -2) + Bonus(tags, "challenging", -1)
    else if Is(level, "intermediate") then
      Bonus(tags, "intermediate", 3) + Bonus(tags, "beginner_friendly", 1) + Bonus(tags, "advanced", 1)
    else if Is(level, "advanced") then
      Bonus(tags, "advanced", 3) + Bonus(tags, "challenging", 2) + Bonus(tags, "high_intensity", 2)
    else 0
  }

  function GoalPoints(goal: Answer, tags: seq<string>): int
  {
    if Is(goal, "weight_loss") then
      Bonus(tags, "cardio", 3) + Bonus(tags, "weight_loss", 3) + Bonus(tags, "high_intensity", 2)
    else if Is(goal, "muscle_gain") then
      Bonus(tags, "strength", 3) + Bonus(tags, "muscle_gain", 3) + Bonus(tags, "toning", 2)
    else if Is(goal, "endurance") then
      Bonus(tags, "cardio", 3) + Bonus(tags, "high_intensity", 2)
    else if Is(goal, "flexibility") then
      Bonus(tags, "flexibility", 3) + Bonus(tags, "yoga", 2)
    else if Is(goal, "general_health") then
      Bonus(tags, "full_body", 2) + Bonus(tags, "beginner_friendly", 1)
    else 0
  }

  /** The training style adds the same amount to every class, whatever its tags. The branch
      tests "mix_both", a value no button offers. */
  function StylePoints(style: Answer): int
  {
    if Is(style, "coach_led") then 2
    else if Is(style, "gym_alone") then -1
    else if Is(style, "mix_both") then 1
    else 0
  }

  function DaysPoints(days: Answer, tags: seq<string>): int
  {
    if Is(days, "1-2") then Bonus(tags, "time_efficient", 2) + Bonus(tags, "full_body", 1)
    else if Is(days, "3-4") then Bonus(tags, "variety", 1)
    else if Is(days, "5+") then Bonus(tags, "specialized", 1)
    else 0
  }

  function MotivationPoints(motivation: Answer, tags: seq<string>): int
  {
    if Is(motivation, "health") then Bonus(tags, "mindfulness", 2) + Bonus(tags, "recovery", 1)
    else if Is(motivation, "appearance") then Bonus(tags, "toning", 2) + Bonus(tags, "strength", 1)
    else if Is(motivation, "performance") then
      Bonus(tags, "high_intensity", 2) + Bonus(tags, "challenging", 2)
    else if Is(motivation, "stress_relief") then
      Bonus(tags, "stress_relief", 3) + Bonus(tags, "flexibility", 1) + Bonus(tags, "mindfulness", 1)
    else 0
  }

  function ActivityPoints(activity: Answer, tags: seq<string>): int
  {
    if Is(activity, "sedentary") || Is(activity, "lightly_active") then
      Bonus(tags, "low_impact", 2) + Bonus(tags, "beginner_friendly", 1)
    else if Is(activity, "very_active") then Bonus(tags, "high_intensity", 1)
    else 0
  }

  /** The score of a class with these tags: the sum of the six criteria's contributions
      (time availability and timeline play no part). */
  function Score(a: AnswerSet, tags: seq<string>): int
  {
    FitnessPoints(a.fitnessLevel, tags) + GoalPoints(a.primaryGoal, tags)
    + StylePoints(a.trainingStyle) + DaysPoints(a.daysPerWeek, tags)
    + MotivationPoints(a.motivation, tags) + ActivityPoints(a.activityLevel, tags)
  }

  /** The `scores` dictionary, indexed by catalog position. */
  function Scores(a: AnswerSet): (sc: seq<int>)
    ensures |sc| == |Catalog.Classes|
  {
    seq(|Catalog.Classes|, i requires 0 <= i < |Catalog.Classes| => Score(a, Catalog.Classes[i].categories))
  }

  /** The body of the scoring loop for one class: `score` starts at 0 and every rule whose
      answer and tag match bumps it, criterion by criterion. */
  method ScoreClass(a: AnswerSet, tags: seq<string>) returns (score: int)
    ensures score == Score(a, tags)
  {
    score := 0;
    score := AddFitnessPoints(score, a.fitnessLevel, tags);
    score := AddGoalPoints(score, a.primaryGoal, tags);
    score := AddStylePoints(score, a.trainingStyle);
    score := AddDaysPoints(score, a.daysPerWeek, tags);
    score := AddMotivationPoints(score, a.motivation, tags);
    score := AddActivityPoints(score, a.activityLevel, tags);
  }

  /** The fitness-level rules. */
  method AddFitnessPoints(before: int, level: Answer, tags: seq<string>) returns (score: int)
    ensures score == before + FitnessPoints(level, tags)
  {
    score := before;
    if Is(level, "beginner") {
      if "beginner_friendly" in tags { score := score + 3; }
      if "advanced" in tags { score := score - 2; }
      if "challenging" in tags { score := score - 1; }
    } else if Is(level, "intermediate") {
      if "intermediate" in tags { score := score + 3; }
      if "beginner_friendly" in tags { score := score + 1; }
      if "advanced" in tags { score := score + 1; }
    } else if Is(level, "advanced") {
      if "advanced" in tags { score := score + 3; }
      if "challenging" in tags { score := score + 2; }
      if "high_intensity" in tags { score := score + 2; }
    }
  }

  /** The goal rules. */
  method AddGoalPoints(before: int, goal: Answer, tags: seq<string>) returns (score: int)
    ensures score == before + GoalPoints(goal, tags)
  {
    score := before;
    if Is(goal, "weight_loss") {
      if "cardio" in tags { score := score + 3; }
      if "weight_loss" in tags { score := score + 3; }
      if "high_intensity" in tags { score := score + 2; }
    } else if Is(goal, "muscle_gain") {
      if "strength" in tags { score := score + 3; }
      if "muscle_gain" in tags { score := score + 3; }
      if "toning" in tags { score := score + 2; }
    } else if Is(goal, "endurance") {
      if "cardio" in tags { score := score + 3; }
      if "high_intensity" in tags { score := score + 2; }
    } else if Is(goal, "flexibility") {
      if "flexibility" in tags { score := score + 3; }
      if "yoga" in tags { score := score + 2; }
    } else if Is(goal, "general_health") {
      if "full_body" in tags { score := score + 2; }
      if "beginner_friendly" in tags { score := score + 1; }
    }
  }

  /** The training-style rules, which do not look at the tags. */
  method AddStylePoints(before: int, style: Answer) returns (score: int)
    ensures score == before + StylePoints(style)
  {
    score := before;
    if Is(style, "coach_led") {
      score := score + 2;
    } else if Is(style, "gym_alone") {
      score := score - 1;
    } else if Is(style, "mix_both") {
      score := score + 1;
    }
  }

  /** The days-per-week rules. */
  method AddDaysPoints(before: int, days: Answer, tags: seq<string>) returns (score: int)
    ensures score == before + DaysPoints(days, tags)
  {
    score := before;
    if Is(days, "1-2") {
      if "time_efficient" in tags { score := score + 2; }
      if "full_body" in tags { score := score + 1; }
    } else if Is(days, "3-4") {
      if "variety" in tags { score := score + 1; }
    } else if Is(days, "5+") {
      if "specialized" in tags { score := score + 1; }
    }
  }

  /** The motivation rules. */
  method AddMotivationPoints(before: int, motivation: Answer, tags: seq<string>) returns (score: int)
    ensures score == before + MotivationPoints(motivation, tags)
  {
    score := before;
    if Is(motivation, "health") {
      if "mindfulness" in tags { score := score + 2; }
      if "recovery" in tags { score := score + 1; }
    } else if Is(motivation, "appearance") {
      if "toning" in tags { score := score + 2; }
      if "strength" in tags { score := score + 1; }
    } else if Is(motivation, "performance") {
      if "high_intensity" in tags { score := score + 2; }
      if "challenging" in tags { score := score + 2; }
    } else if Is(motivation, "stress_relief") {
      if "stress_relief" in tags { score := score + 3; }
      if "flexibility" in tags { score := score + 1; }
      if "mindfulness" in tags { score := score + 1; }
    }
  }

  /** The activity-level rules. */
  method AddActivityPoints(before: int, activity: Answer, tags: seq<string>) returns (score: int)
    ensures score == before + ActivityPoints(activity, tags)
  {
    score := before;
    if Is(activity, "sedentary") || Is(activity, "lightly_active") {
      if "low_impact" in tags { score := score + 2; }
      if "beginner_friendly" in tags { score := score + 1; }
    } else if Is(activity, "very_active") {
      if "high_intensity" in tags { score := score + 1; }
    }
  }

  /** The scoring loop over `Object.keys(allClasses)`: each class's `score` starts at 0 and
      is bumped by every matching rule, then stored under the class's key. */
  method ComputeScores(a: AnswerSet) returns (scores: seq<int>)
    ensures |scores| == |Catalog.Classes|
    ensures forall i :: 0 <= i < |scores| ==> scores[i] == Score(a, Catalog.Classes[i].categories)
  {
    scores := [];
    var i := 0;
    while i < |Catalog.Classes|
      invariant 0 <= i <= |Catalog.Classes|
      invariant |scores| == i
      invariant forall k :: 0 <= k < i ==> scores[k] == Score(a, Catalog.Classes[k].categories)
    {
      var score := ScoreClass(a, Catalog.Classes[i].categories);
      scores := scores + [score];
      i := i + 1;
    }
  }

  /** Changing the training style shifts every class's score by the same amount, so it
      never changes how two classes compare. */
  lemma StyleShiftsAllScores(a: AnswerSet, style: Answer)
    ensures forall i :: 0 <= i < |Catalog.Classes| ==>
              Scores(a.(trainingStyle := style))[i]
              == Scores(a)[i] - StylePoints(a.trainingStyle) + StylePoints(style)
  {
  }

  /** The style bonus for each value: "combination", "with_trainer" and "with_friend", the
      values the buttons offer besides the first two, add nothing. */
  lemma StyleBonuses()
    ensures StylePoints(Single("coach_led")) == 2
    ensures StylePoints(Single("gym_alone")) == -1
    ensures StylePoints(Single("mix_both")) == 1
    ensures StylePoints(Single("combination")) == 0
    ensures StylePoints(Single("with_trainer")) == 0 && StylePoints(Single("with_friend")) == 0
  {
  }

  /** The "yoga" bonus of the flexibility goal and the "specialized" bonus of five or more
      days never apply to a catalog class. */
  lemma DeadBonuses(i: Catalog.Position)
    ensures GoalPoints(Single("flexibility"), Catalog.Classes[i].categories)
            == Bonus(Catalog.Classes[i].categories, "flexibility", 3)
    ensures DaysPoints(Single("5+"), Catalog.Classes[i].categories) == 0
  {
    Catalog.YogaTagUnused();
    Catalog.SpecializedTagUnused();
  }

  /** An array-valued goal or motivation equals none of the literals it is compared with, so
      it scores like an unanswered question: each on its own, and both together. */
  lemma ArrayAnswersScoreNothing(a: AnswerSet, goals: seq<string>, motives: seq<string>, tags: seq<string>)
    ensures Score(a.(primaryGoal := Multi(goals)), tags) == Score(a.(primaryGoal := Absent), tags)
    ensures Score(a.(motivation := Multi(motives)), tags) == Score(a.(motivation := Absent), tags)
    ensures Score(a.(primaryGoal := Multi(goals), motivation := Multi(motives)), tags)
            == Score(a.(primaryGoal := Absent, motivation := Absent), tags)
  {
  }

  /** With nothing answered every class scores 0. */
  lemma UnansweredScoresZero()
    ensures forall i :: 0 <= i < |Catalog.Classes| ==> Scores(Unanswered)[i] == 0
  {
  }

  /** Only the training style is answered (time and timeline do not score). */
  predicate OnlyStyleScores(a: AnswerSet)
  {
    a.fitnessLevel == Absent && a.primaryGoal == Absent && a.daysPerWeek == Absent
    && a.motivation == Absent && a.activityLevel == Absent
  }

  /** With only the style answered every class scores the style bonus and nothing else. */
  lemma StyleAloneScores(a: AnswerSet)
    requires OnlyStyleScores(a)
    ensures forall i :: 0 <= i < |Catalog.Classes| ==> Scores(a)[i] == StylePoints(a.trainingStyle)
  {
  }
}
