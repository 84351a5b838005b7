/** The `keyRecommendations` of `generateRecommendations`: six criteria, each of which pushes
    the tips of the one answer value its `if`/`else if` chain recognises, in the fixed order
    fitness level, goal, training style, days per week, motivation, timeline; the list is
    then cut to its first four entries. */
module Tips {
  import opened Answers
  import opened Collections

  /** `maxRecommendations`. */
  const MaxRecommendations := 4

  const FitnessTips: map<string, seq<string>> := map[
    "beginner" := [
      "Start with 2-3 workouts per week and gradually increase frequency",
      "Focus on proper form over intensity to prevent injury",
      "Include rest days for recovery and adaptation"],
    "intermediate" := [
      "Gradually increase the challenge of your workouts to keep making progress",
      "Add variety to prevent boredom and maintain motivation",
      "Keep track of your workouts to monitor progress"],
    "advanced" := [
      "Plan your training in cycles for long-term improvement",
      "Focus on recovery and rest between intense workouts",
      "Consider working with a trainer for advanced programming"]
  ]

  /** No tips for general health. */
  const GoalTips: map<string, seq<string>> := map[
    "weight_loss" := [
      "Combine cardio and strength training to help you feel stronger and healthier",
      "Focus on building healthy habits that you can maintain long-term",
      "Stay consistent with your exercise routine"],
    "muscle_gain" := [
      "Focus on exercises that work multiple muscle groups at once",
      "Give your muscles time to rest between workouts",
      "Allow 48-72 hours between training the same muscle groups"],
    "endurance" := [
      "Include both steady cardio and interval training",
      "Gradually increase duration and intensity over time",
      "Focus on proper breathing and pacing strategies"],
    "flexibility" := [
      "Practice daily stretching, even for just 10-15 minutes",
      "Include gentle warm-ups before workouts",
      "Consider yoga or Pilates classes for structured practice"]
  ]

  /** Keyed by "mix_both", which no option offers, rather than "combination". */
  const StyleTips: map<string, seq<string>> := map[
    "coach_led" := [
      "Book classes in advance to secure your spot",
      "Try different instructors to find your preferred teaching style",
      "Arrive early to set up and introduce yourself to the instructor"],
    "gym_alone" := [
      "Create a structured workout plan to maximize your time",
      "Learn proper form for exercises to prevent injury",
      "Consider working with a trainer occasionally for technique check-ins"],
    "mix_both" := [
      "Use classes for motivation and solo training for specific goals",
      "Schedule classes for days when you need extra motivation",
      "Balance structured classes with flexible solo sessions"]
  ]

  /** The one- to two-day entry has four tips, the others three. */
  const DaysTips: map<string, seq<string>> := map[
    "1-2" := [
      "Aim for at least 3 sessions per week for optimal health benefits",
      "Focus on full-body workouts that work multiple muscle groups",
      "Make each session count with exercises that work several areas at once",
      "Consider longer sessions (60-90 minutes) since you have fewer days"],
    "3-4" := [
      "Create a balanced weekly schedule with rest days between sessions",
      "Alternate between upper body, lower body, and full-body workouts",
      "Include at least one cardio-focused session per week"],
    "5+" := [
      "Plan recovery days and avoid working the same muscle groups back-to-back",
      "Include variety to prevent burnout and overuse injuries",
      "Consider gentle activities on lighter training days"]
  ]

  const MotivationTips: map<string, seq<string>> := map[
    "health" := [
      "Focus on how exercise makes you feel, not just appearance",
      "Track health metrics like energy levels and sleep quality",
      "Include stress-reducing activities like yoga or meditation"],
    "appearance" := [
      "Take progress photos and measurements regularly",
      "Focus on both strength training and cardio for overall body health",
      "Be patient - visible changes take 4-8 weeks"],
    "performance" := [
      "Set specific, measurable goals and track progress",
      "Include sport-specific training if applicable",
      "Focus on gradually increasing challenge and skill development"],
    "stress_relief" := [
      "Choose activities you genuinely enjoy",
      "Include mindful movement practices like yoga or tai chi",
      "Use exercise as a form of active meditation"]
  ]

  /** Only the one-month and one-year timelines have tips. */
  const TimelineTips: map<string, seq<string>> := map[
    "1_month" := [
      "Focus on building consistent habits and proper form",
      "Expect initial improvements in energy and mood",
      "Don't get discouraged - visible changes take longer"],
    "1_year" := [
      "Develop a sustainable long-term approach",
      "Plan for different phases of training throughout the year",
      "Focus on lifestyle integration, not just short-term goals"]
  ]

  /** A criterion's table: the tips pushed for each answer value one of its branches tests. */
  type TipTable = map<string, seq<string>>

  /** The six criteria's tables, in the order their chains run. */
  datatype TipRules = TipRules(
    fitness: TipTable,
    goal: TipTable,
    style: TipTable,
    days: TipTable,
    motivation: TipTable,
    timeline: TipTable)

  /** The tables `generateRecommendations` writes out. */
  const Rules := TipRules(FitnessTips, GoalTips, StyleTips, DaysTips, MotivationTips, TimelineTips)

  /** What one criterion's `if (answer === 'x') … else if …` chain pushes: the tips of the
      value the answer strictly equals, or nothing. */
  function BranchTips(table: TipTable, answer: Answer): (r: seq<string>)
    ensures r != [] ==> answer.Single? && answer.value in table && r == table[answer.value]
    ensures answer.Single? && answer.value in table ==> r == table[answer.value]
  {
    match answer
    case Single(v) => if v in table then table[v] else []
    case _ => []
  }

  /** The tips of the first two criteria, fitness level then goal. */
  function LeadingTips(rules: TipRules, a: AnswerSet): seq<string>
  {
    BranchTips(rules.fitness, a.fitnessLevel) + BranchTips(rules.goal, a.primaryGoal)
  }

  /** Every tip `keyRecs` collects, in push order. */
  function Tips(rules: TipRules, a: AnswerSet): seq<string>
  {
    LeadingTips(rules, a)
    + BranchTips(rules.style, a.trainingStyle) + BranchTips(rules.days, a.daysPerWeek)
    + BranchTips(rules.motivation, a.motivation) + BranchTips(rules.timeline, a.timeline)
  }

  /** `keyRecs.slice(0, maxRecommendations)`. */
  function KeyRecommendations(rules: TipRules, a: AnswerSet): (r: seq<string>)
    ensures |r| <= MaxRecommendations
    ensures |r| == Min(MaxRecommendations, |Tips(rules, a)|)
    ensures r == Tips(rules, a)[..|r|]
  {
    Take(Tips(rules, a), MaxRecommendations)
  }

  /** The tip-collecting part of `generateRecommendations`: `keyRecs` starts empty, each
      criterion pushes its tips in turn, and the first four are kept. */
  method CollectKeyRecommendations(rules: TipRules, a: AnswerSet) returns (recs: seq<string>)
    ensures recs == KeyRecommendations(rules, a)
    ensures |recs| <= MaxRecommendations
  {
    var keyRecs: seq<string> := [];
    ghost var fitness := BranchTips(rules.fitness, a.fitnessLevel);
    assert keyRecs + fitness == fitness;
    keyRecs := keyRecs + BranchTips(rules.fitness, a.fitnessLevel);
    keyRecs := keyRecs + BranchTips(rules.goal, a.primaryGoal);
    keyRecs := keyRecs + BranchTips(rules.style, a.trainingStyle);
    keyRecs := keyRecs + BranchTips(rules.days, a.daysPerWeek);
    keyRecs := keyRecs + BranchTips(rules.motivation, a.motivation);
    keyRecs := keyRecs + BranchTips(rules.timeline, a.timeline);
    var n := if |keyRecs| < MaxRecommendations then |keyRecs| else MaxRecommendations;
    recs := keyRecs[..n];
  }

  // ----- properties of any tables -----

  /** A criterion whose answer none of its branches recognises, an array answer among them,
      pushes nothing. */
  lemma UnrecognisedPushesNothing(table: TipTable, answer: Answer)
    requires !(answer.Single? && answer.value in table)
    ensures BranchTips(table, answer) == []
  {
  }

  /** An array-valued goal or motivation adds no tips: the list is that of the same answers
      with that question left unanswered, for each of the two alone and for both together. */
  lemma ArrayAnswersAddNoTips(rules: TipRules, a: AnswerSet, goals: seq<string>, motives: seq<string>)
    ensures Tips(rules, a.(primaryGoal := Multi(goals))) == Tips(rules, a.(primaryGoal := Absent))
    ensures Tips(rules, a.(motivation := Multi(motives))) == Tips(rules, a.(motivation := Absent))
    ensures Tips(rules, a.(primaryGoal := Multi(goals), motivation := Multi(motives)))
            == Tips(rules, a.(primaryGoal := Absent, motivation := Absent))
  {
  }

  /** First come, first kept: the fitness-level tips come first and are all kept when they
      fit in four, and once the fitness and goal tips make four or more, the later criteria
      no longer matter. */
  lemma FirstTipsWin(rules: TipRules, a: AnswerSet)
    ensures var fitness := BranchTips(rules.fitness, a.fitnessLevel);
            |fitness| <= MaxRecommendations ==> KeyRecommendations(rules, a)[..|fitness|] == fitness
    ensures |LeadingTips(rules, a)| >= MaxRecommendations
            ==> KeyRecommendations(rules, a) == LeadingTips(rules, a)[..MaxRecommendations]
  {
    var t := Tips(rules, a);
    var front := LeadingTips(rules, a);
    var fitness := BranchTips(rules.fitness, a.fitnessLevel);
    assert t == front + t[|front|..];
    assert front == fitness + BranchTips(rules.goal, a.primaryGoal);
    assert t == fitness + t[|fitness|..];
    TakeOfConcat(fitness, t[|fitness|..], MaxRecommendations);
    TakeOfConcat(front, t[|front|..], MaxRecommendations);
  }

  // ----- properties of the tables the program uses -----

  /** Every value the table recognises pushes exactly `n` tips. */
  predicate PushesExactly(table: TipTable, n: nat)
  {
    forall v :: v in table ==> |table[v]| == n
  }

  /** A criterion pushes all of its value's tips or none. */
  lemma BranchSize(table: TipTable, answer: Answer, n: nat)
    requires PushesExactly(table, n)
    ensures |BranchTips(table, answer)| in {0, n}
    ensures 0 < n ==> (|BranchTips(table, answer)| == n <==> answer.Single? && answer.value in table)
  {
    if answer.Single? && answer.value in table {
      assert |table[answer.value]| == n;
    }
  }

  /** The fitness-level table: three tips for each level. */
  lemma FitnessTableSize()
    ensures PushesExactly(FitnessTips, 3)
  {
    forall v | v in FitnessTips ensures |FitnessTips[v]| == 3 {
      assert v in {"beginner", "intermediate", "advanced"};
    }
  }

  /** The goal table: three tips for each goal it names. */
  lemma GoalTableSize()
    ensures PushesExactly(GoalTips, 3)
  {
    forall v | v in GoalTips ensures |GoalTips[v]| == 3 {
      assert v in {"weight_loss", "muscle_gain", "endurance", "flexibility"};
    }
  }

  /** The style table: three tips for each style it names. */
  lemma StyleTableSize()
    ensures PushesExactly(StyleTips, 3)
  {
    forall v | v in StyleTips ensures |StyleTips[v]| == 3 {
      assert v in {"coach_led", "gym_alone", "mix_both"};
    }
  }

  /** The motivation table: three tips for each motivation. */
  lemma MotivationTableSize()
    ensures PushesExactly(MotivationTips, 3)
  {
    forall v | v in MotivationTips ensures |MotivationTips[v]| == 3 {
      assert v in {"health", "appearance", "performance", "stress_relief"};
    }
  }

  /** The timeline table: three tips for each timeline it names. */
  lemma TimelineTableSize()
    ensures PushesExactly(TimelineTips, 3)
  {
    forall v | v in TimelineTips ensures |TimelineTips[v]| == 3 {
      assert v in {"1_month", "1_year"};
    }
  }

  /** The days table: four tips for one to two days a week, three for the others. */
  lemma DaysTableSize()
    ensures forall v :: v in DaysTips ==> |DaysTips[v]| == (if v == "1-2" then 4 else 3)
  {
    forall v | v in DaysTips ensures |DaysTips[v]| == (if v == "1-2" then 4 else 3) {
      assert v in {"1-2", "3-4", "5+"};
    }
  }

  /** The fitness-level tips, when the fitness level is recognised, are the first three
      kept, whatever else was answered. */
  lemma FitnessTipsAlwaysKept(rules: TipRules, a: AnswerSet)
    requires rules.fitness == FitnessTips
    requires a.fitnessLevel.Single? && a.fitnessLevel.value in FitnessTips
    ensures |KeyRecommendations(rules, a)| >= 3
    ensures KeyRecommendations(rules, a)[..3] == FitnessTips[a.fitnessLevel.value]
  {
    FitnessTableSize();
    assert |FitnessTips[a.fitnessLevel.value]| == 3;
    FirstTipsWin(rules, a);
  }

  /** The general-health goal, the options "combination", "with_trainer" and "with_friend",
      and the three- and six-month timelines push no tips. */
  lemma SilentValues()
    ensures BranchTips(GoalTips, Single("general_health")) == []
    ensures BranchTips(StyleTips, Single("combination")) == []
    ensures BranchTips(StyleTips, Single("with_trainer")) == []
    ensures BranchTips(StyleTips, Single("with_friend")) == []
    ensures BranchTips(TimelineTips, Single("3_months")) == []
    ensures BranchTips(TimelineTips, Single("6_months")) == []
  {
  }

  /** With fitness level, goal and style unanswered and one to two days a week, that
      criterion's four tips fill every slot, whatever motivation and timeline say. */
  lemma DaysAloneFillsAll(rules: TipRules, a: AnswerSet)
    requires rules.days == DaysTips
    requires a.fitnessLevel == Absent && a.primaryGoal == Absent && a.trainingStyle == Absent
    requires a.daysPerWeek == Single("1-2")
    ensures KeyRecommendations(rules, a) == DaysTips["1-2"]
  {
    var days := DaysTips["1-2"];
    DaysTableSize();
    assert |days| == 4;
    var t := Tips(rules, a);
    assert t == days + t[|days|..];
    TakeOfConcat(days, t[|days|..], MaxRecommendations);
  }
}
