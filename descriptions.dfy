/** The four text fields of `generateRecommendations`: the goal description (goal and
    motivation texts joined), the weekly schedule, the workout types and the session
    duration. Each is a table lookup with a fallback. */
module Descriptions {
  import opened Answers
  import opened Strings
  import opened Collections

  // Each text is written as its first word followed by the rest, which lets the
  // verifier see the first character of the string.
  const GoalDescriptions: map<string, string> := map[
    "weight_loss" := "Focus" + " on cardio activities and strength exercises to help you feel stronger and more energetic.",
    "muscle_gain" := "Focus" + " on strength training exercises that work multiple muscle groups to build muscle safely.",
    "endurance" := "Build" + " your stamina through consistent cardio activities and gradually increase your workout intensity.",
    "flexibility" := "Improve" + " your movement and prevent injury through regular stretching, yoga, and gentle exercises.",
    "general_health" := "Maintain" + " overall wellness through balanced exercise, stress management, and healthy habits."
  ]

  const MotivationDescriptions: map<string, string> := map[
    "health" := "Prioritizing" + " your health and well-being through regular exercise.",
    "appearance" := "Focusing" + " on how exercise helps you look and feel your best.",
    "performance" := "Improving" + " your physical performance and capabilities.",
    "stress_relief" := "Using" + " exercise as a way to manage stress and feel more relaxed."
  ]

  const ScheduleRecommendations: map<string, string> := map[
    "1-2" := "3 sessions per week minimum, focusing on full-body workouts and efficient training",
    "3-4" := "3-4 sessions per week with balanced strength and cardio training",
    "5+" := "5-6 sessions per week with dedicated recovery and variety"
  ]

  const TypeSeparator := ", "

  /** The workout types of each goal, in the order the source lists them. */
  const WorkoutTypeTokens: map<string, seq<string>> := map[
    "weight_loss" := ["Cardio", "Resistance", "Flexibility", "Core"],
    "muscle_gain" := ["Resistance", "Plyometric", "Flexibility", "Core"],
    "endurance" := ["Cardio", "Speed Agility & Quickness", "Plyometric", "Resistance"],
    "flexibility" := ["Flexibility", "Balance", "Core"],
    "general_health" := ["Resistance", "Cardio", "Flexibility", "Core"]
  ]

  /** `workoutTypeMapping`: each goal's workout types joined with ", " (for weight loss,
      "Cardio, Resistance, Flexibility, Core"). */
  const WorkoutTypeMapping: map<string, string> :=
    map g | g in WorkoutTypeTokens :: Join(WorkoutTypeTokens[g], TypeSeparator)

  /** No workout type contains a comma and no goal lists one twice. */
  lemma TokensWellFormed(goal: string)
    requires goal in WorkoutTypeTokens
    ensures NoDup(WorkoutTypeTokens[goal])
    ensures forall k :: 0 <= k < |WorkoutTypeTokens[goal]| ==> ',' !in WorkoutTypeTokens[goal][k]
  {
    assert goal in {"weight_loss", "muscle_gain", "endurance", "flexibility", "general_health"};
  }

  const DurationRecommendations: map<string, string> := map[
    "2-3" := "30-45 minutes per session",
    "4-5" := "45-60 minutes per session",
    "6-8" := "60-75 minutes per session",
    "8+" := "60-90 minutes per session"
  ]

  /** `keys.map(k => table[k]).filter(Boolean)`: the entries of the known keys, in order;
      an unknown key maps to `undefined` and is dropped, as an empty entry would be. */
  function MappedTexts(table: map<string, string>, keys: seq<string>): (r: seq<string>)
    ensures |r| <= |keys|
    ensures forall k :: 0 <= k < |r| ==> r[k] in table.Values && r[k] != ""
  {
    if keys == [] then []
    else
      var rest := MappedTexts(table, keys[1..]);
      if keys[0] in table && table[keys[0]] != "" then [table[keys[0]]] + rest else rest
  }

  /** A known key with a non-empty entry contributes that entry, ahead of the texts of the
      keys after it. */
  lemma MappedTextsKnown(table: map<string, string>, k: string, keys: seq<string>)
    requires k in table && table[k] != ""
    ensures MappedTexts(table, [k] + keys) == [table[k]] + MappedTexts(table, keys)
  {
    assert ([k] + keys)[1..] == keys;
  }

  /** `primaryGoalText`: an array joins the texts of its known goals with spaces; anything
      else is looked up, falling back to the general-health text. */
  function GoalText(goal: Answer): string
  {
    match goal
    case Multi(goals) => Join(MappedTexts(GoalDescriptions, goals), " ")
    case _ => LookupOr(GoalDescriptions, goal, GoalDescriptions["general_health"])
  }

  /** `motivationText`: like the goal text, but the fallback is the empty string. */
  function MotivationText(motivation: Answer): string
  {
    match motivation
    case Multi(motives) => Join(MappedTexts(MotivationDescriptions, motives), " ")
    case _ => LookupOr(MotivationDescriptions, motivation, "")
  }

  /** `recommendations.primaryGoal`: `` `${goalText} ${motivationText}`.trim() ``. */
  function GoalSummary(goal: Answer, motivation: Answer): string
  {
    Trim(GoalText(goal) + " " + MotivationText(motivation))
  }

  /** `recommendations.schedule`, falling back to the "3-4" entry. */
  function ScheduleText(days: Answer): string
  {
    LookupOr(ScheduleRecommendations, days, ScheduleRecommendations["3-4"])
  }

  /** `recommendations.duration`, falling back to the "4-5" entry. */
  function DurationText(time: Answer): string
  {
    LookupOr(DurationRecommendations, time, DurationRecommendations["4-5"])
  }

  // ----- the workout types of several goals -----

  /** The tokens a goal contributes: its list when the goal is known, nothing otherwise. */
  function GoalTokens(goal: string): seq<string>
  {
    if goal in WorkoutTypeTokens then WorkoutTypeTokens[goal] else []
  }

  /** The tokens of all goals in selection order, repeats included. */
  function AllGoalTokens(goals: seq<string>): seq<string>
  {
    if goals == [] then [] else AllGoalTokens(goals[..|goals| - 1]) + GoalTokens(goals[|goals| - 1])
  }

  /** What `new Set()` holds after its values were added in the order of `s`: each value
      once, where it was first added. */
  function Dedup(s: seq<string>): (r: seq<string>)
    ensures NoDup(r)
    ensures forall x :: x in r <==> x in s
  {
    if s == [] then []
    else
      var d := Dedup(s[..|s| - 1]);
      assert s == s[..|s| - 1] + [s[|s| - 1]];
      if s[|s| - 1] in d then d else d + [s[|s| - 1]]
  }

  /** `recommendations.workoutTypes`: for an array, the de-duplicated union of the types of
      its known goals, joined with ", "; otherwise a lookup falling back to general health. */
  function WorkoutTypes(goal: Answer): string
  {
    match goal
    case Multi(goals) => Join(Dedup(AllGoalTokens(goals)), TypeSeparator)
    case _ => LookupOr(WorkoutTypeMapping, goal, WorkoutTypeMapping["general_health"])
  }

  /** The `workoutTypes` field: an array of goals is resolved by the union, any other
      answer by the mapping with its general-health fallback. */
  method ResolveWorkoutTypes(goal: Answer) returns (types: string)
    ensures types == WorkoutTypes(goal)
  {
    match goal {
      case Multi(goals) =>
        var all := UnionWorkoutTypes(goals);
        types := Join(all, TypeSeparator);
      case _ =>
        types := LookupOr(WorkoutTypeMapping, goal, WorkoutTypeMapping["general_health"]);
    }
  }

  /** No workout-type token contains a comma, so splitting a mapping entry on ", " gives
      back its tokens. */
  lemma MappingSplits(goal: string)
    requires goal in WorkoutTypeMapping
    ensures goal in WorkoutTypeTokens
    ensures Split(WorkoutTypeMapping[goal], TypeSeparator) == WorkoutTypeTokens[goal]
  {
    TokensWellFormed(goal);
    SplitJoin(WorkoutTypeTokens[goal], TypeSeparator);
  }

  /** The `forEach` over the selected goals that fills `allWorkoutTypes`: each known goal's
      entry is split on ", " and every token not yet in the set is added. The result holds
      every token of a known goal exactly once, in the order it was first met. */
  method UnionWorkoutTypes(goals: seq<string>) returns (types: seq<string>)
    ensures types == Dedup(AllGoalTokens(goals))
    ensures NoDup(types)
    ensures forall t :: t in types <==> exists g :: g in goals && t in GoalTokens(g)
  {
    types := [];
    var i := 0;
    while i < |goals|
      invariant 0 <= i <= |goals|
      invariant types == Dedup(AllGoalTokens(goals[..i]))
    {
      var goal := goals[i];
      AllGoalTokensStep(goals, i);
      if goal in WorkoutTypeMapping {
        MappingSplits(goal);
        types := AddTypes(types, AllGoalTokens(goals[..i]), Split(WorkoutTypeMapping[goal], TypeSeparator));
      } else {
        assert AllGoalTokens(goals[..i]) + GoalTokens(goal) == AllGoalTokens(goals[..i]);
      }
      i := i + 1;
    }
    assert goals[..i] == goals;
    AllGoalTokensMembers(goals);
  }

  /** `.forEach(type => allWorkoutTypes.add(type))`: adds each token not already in the
      set, at the end. */
  method AddTypes(current: seq<string>, ghost seen: seq<string>, tokens: seq<string>) returns (types: seq<string>)
    requires current == Dedup(seen)
    ensures types == Dedup(seen + tokens)
  {
    types := current;
    assert seen + tokens[..0] == seen;
    var j := 0;
    while j < |tokens|
      invariant 0 <= j <= |tokens|
      invariant types == Dedup(seen + tokens[..j])
    {
      DedupSnoc(seen, tokens, j);
      if tokens[j] !in types {
        types := types + [tokens[j]];
      }
      j := j + 1;
    }
    assert tokens[..j] == tokens;
  }

  lemma AllGoalTokensStep(goals: seq<string>, i: nat)
    requires i < |goals|
    ensures AllGoalTokens(goals[..i + 1]) == AllGoalTokens(goals[..i]) + GoalTokens(goals[i])
  {
    assert goals[..i + 1][..i] == goals[..i];
  }

  /** Adding one more value to the set: it is appended unless it is already there. */
  lemma DedupSnoc(before: seq<string>, tokens: seq<string>, j: nat)
    requires j < |tokens|
    ensures Dedup(before + tokens[..j + 1])
            == if tokens[j] in Dedup(before + tokens[..j]) then Dedup(before + tokens[..j])
               else Dedup(before + tokens[..j]) + [tokens[j]]
  {
    var s := before + tokens[..j + 1];
    assert s[..|s| - 1] == before + tokens[..j];
    assert s[|s| - 1] == tokens[j];
  }

  /** A token is in the concatenated list exactly when some selected goal contributes it. */
  lemma {:induction false} AllGoalTokensMembers(goals: seq<string>)
    ensures forall t :: t in AllGoalTokens(goals) <==> exists g :: g in goals && t in GoalTokens(g)
  {
    if goals != [] {
      var front := goals[..|goals| - 1];
      var last := goals[|goals| - 1];
      AllGoalTokensMembers(front);
      assert goals == front + [last];
      forall t ensures t in AllGoalTokens(goals) <==> exists g :: g in goals && t in GoalTokens(g) {
        if t in GoalTokens(last) {
          assert last in goals;
        }
        if exists g :: g in goals && t in GoalTokens(g) {
          var g :| g in goals && t in GoalTokens(g);
          if g != last { assert g in front; }
        }
      }
    }
  }

  /** The union lists tokens in the order they were first met: a token comes before
      another exactly when its first occurrence among the goals' tokens does. */
  lemma {:induction false} DedupFirstSeenOrder(s: seq<string>)
    ensures forall i, j :: 0 <= i < j < |Dedup(s)| ==>
              IndexOf(s, Dedup(s)[i]) < IndexOf(s, Dedup(s)[j])
  {
    if s != [] {
      var front := s[..|s| - 1];
      var x := s[|s| - 1];
      var d := Dedup(front);
      DedupFirstSeenOrder(front);
      assert s == front + [x];
      forall y | y in front ensures IndexOf(s, y) == IndexOf(front, y) {
        IndexOfConcat(front, [x], y);
      }
      if x !in d {
        forall i | 0 <= i < |d| ensures IndexOf(s, Dedup(s)[i]) < IndexOf(s, x) {
          assert Dedup(s)[i] == d[i] && d[i] in front;
          assert IndexOf(s, x) == |front| by {
            assert x !in front;
            IndexOfConcat(front, [x], x);
          }
        }
      }
    }
  }

  // ----- properties of the text fields -----

  /** Every goal text is non-empty and starts and ends with a non-blank character. */
  lemma GoalTextsClean()
    ensures forall g :: g in GoalDescriptions ==>
              GoalDescriptions[g] != "" && NoEdgeWhitespace(GoalDescriptions[g])
  {
    forall g | g in GoalDescriptions
      ensures GoalDescriptions[g] != "" && NoEdgeWhitespace(GoalDescriptions[g])
    {
      assert g in {"weight_loss", "muscle_gain", "endurance", "flexibility", "general_health"};
    }
  }

  /** Every motivation text is non-empty and starts and ends with a non-blank character. */
  lemma MotivationTextsClean()
    ensures forall m :: m in MotivationDescriptions ==>
              MotivationDescriptions[m] != "" && NoEdgeWhitespace(MotivationDescriptions[m])
  {
    forall m | m in MotivationDescriptions
      ensures MotivationDescriptions[m] != "" && NoEdgeWhitespace(MotivationDescriptions[m])
    {
      assert m in {"health", "appearance", "performance", "stress_relief"};
    }
  }

  lemma GoalTextHasNoEdgeWhitespace(goal: Answer)
    ensures NoEdgeWhitespace(GoalText(goal))
    ensures goal.Multi? ==> (GoalText(goal) == "" <==> MappedTexts(GoalDescriptions, goal.values) == [])
  {
    GoalTextsClean();
    if goal.Multi? {
      var texts := MappedTexts(GoalDescriptions, goal.values);
      JoinNoEdge(texts, " ");
    }
  }

  lemma MotivationTextHasNoEdgeWhitespace(motivation: Answer)
    ensures NoEdgeWhitespace(MotivationText(motivation))
  {
    MotivationTextsClean();
    if motivation.Multi? {
      JoinNoEdge(MappedTexts(MotivationDescriptions, motivation.values), " ");
    }
  }

  /** The goal summary is the goal text and the motivation text separated by one space,
      or just whichever of the two is non-empty. */
  lemma GoalSummaryJoins(goal: Answer, motivation: Answer)
    ensures GoalSummary(goal, motivation)
            == if MotivationText(motivation) == "" then GoalText(goal)
               else if GoalText(goal) == "" then MotivationText(motivation)
               else GoalText(goal) + " " + MotivationText(motivation)
  {
    GoalTextHasNoEdgeWhitespace(goal);
    MotivationTextHasNoEdgeWhitespace(motivation);
    TrimSpaceJoined(GoalText(goal), MotivationText(motivation));
  }

  /** A single goal answer always yields a goal description: its own when it is known, the
      general-health one otherwise (missing answers included). */
  lemma SingleGoalText(goal: Answer)
    requires !goal.Multi?
    ensures PropertyKey(goal) in GoalDescriptions ==> GoalText(goal) == GoalDescriptions[PropertyKey(goal)]
    ensures PropertyKey(goal) !in GoalDescriptions ==> GoalText(goal) == GoalDescriptions["general_health"]
    ensures GoalText(goal) != ""
  {
  }

  /** For an array of goals only the known ones contribute text, in selection order. */
  lemma {:induction false} MappedTextsSkipUnknown(table: map<string, string>, keys: seq<string>, extra: string)
    requires extra !in table
    ensures MappedTexts(table, [extra] + keys) == MappedTexts(table, keys)
    ensures MappedTexts(table, keys + [extra]) == MappedTexts(table, keys)
    decreases |keys|
  {
    assert ([extra] + keys)[1..] == keys;
    if keys != [] {
      assert (keys + [extra])[1..] == keys[1..] + [extra];
      MappedTextsSkipUnknown(table, keys[1..], extra);
    } else {
      assert keys + [extra] == [extra];
    }
  }

  /** A goal and a motivation the tables do not know (a missing answer among them: its key
      is "undefined") give the general-health goal text alone. */
  lemma GoalSummaryFallback(goal: Answer, motivation: Answer)
    requires !goal.Multi? && PropertyKey(goal) !in GoalDescriptions
    requires !motivation.Multi? && PropertyKey(motivation) !in MotivationDescriptions
    ensures GoalSummary(goal, motivation) == GoalDescriptions["general_health"]
  {
    assert GoalText(goal) == GoalDescriptions["general_health"];
    assert MotivationText(motivation) == "";
    GoalSummaryJoins(goal, motivation);
  }

  /** A single goal the mapping does not know gets the general-health workout types. */
  lemma WorkoutTypesFallback(goal: Answer)
    requires !goal.Multi? && PropertyKey(goal) !in WorkoutTypeTokens
    ensures WorkoutTypes(goal) == WorkoutTypeMapping["general_health"]
  {
    assert PropertyKey(goal) !in WorkoutTypeMapping;
  }

  /** An unknown days answer gets the three-to-four-days schedule. */
  lemma ScheduleFallback(days: Answer)
    requires PropertyKey(days) !in ScheduleRecommendations
    ensures ScheduleText(days) == ScheduleRecommendations["3-4"]
  {
  }

  /** An unknown time answer gets the four-to-five-hours duration. */
  lemma DurationFallback(time: Answer)
    requires PropertyKey(time) !in DurationRecommendations
    ensures DurationText(time) == DurationRecommendations["4-5"]
  {
  }

  /** A schedule answer the table knows gets its own entry. */
  lemma ScheduleKnown(days: string)
    requires days in ScheduleRecommendations
    ensures ScheduleText(Single(days)) == ScheduleRecommendations[days]
  {
  }

  /** A time answer the table knows gets its own duration. */
  lemma DurationKnown(time: string)
    requires time in DurationRecommendations
    ensures DurationText(Single(time)) == DurationRecommendations[time]
  {
  }

  /** A missing answer is looked up under the key "undefined", which no table has. */
  lemma MissingAnswerFallsBack()
    ensures PropertyKey(Absent) !in GoalDescriptions && PropertyKey(Absent) !in MotivationDescriptions
    ensures PropertyKey(Absent) !in ScheduleRecommendations && PropertyKey(Absent) !in DurationRecommendations
  {
  }

  lemma MappingEntry(goal: string)
    requires goal in WorkoutTypeTokens
    ensures goal in WorkoutTypeMapping
    ensures WorkoutTypeMapping[goal] == Join(WorkoutTypeTokens[goal], TypeSeparator)
    ensures WorkoutTypeMapping[goal] != ""
  {
    var toks := WorkoutTypeTokens[goal];
    assert toks[0] != "" by {
      assert goal in {"weight_loss", "muscle_gain", "endurance", "flexibility", "general_health"};
    }
    assert |toks| > 1;
    assert Join(toks, TypeSeparator) == toks[0] + TypeSeparator + Join(toks[1..], TypeSeparator);
  }

  /** Picking one known goal as an array gives the same workout types as picking it as a
      single answer; an unknown goal in an array gives none, where a single unknown goal
      falls back to general health. */
  lemma OneGoalArrayAgrees(goal: string)
    ensures goal in WorkoutTypeTokens ==> WorkoutTypes(Multi([goal])) == WorkoutTypes(Single(goal))
    ensures goal !in WorkoutTypeTokens ==> WorkoutTypes(Multi([goal])) == ""
  {
    assert [goal][..0] == [];
    assert AllGoalTokens([goal]) == GoalTokens(goal);
    if goal in WorkoutTypeTokens {
      TokensWellFormed(goal);
      DedupOfDistinct(WorkoutTypeTokens[goal]);
      MappingEntry(goal);
      assert PropertyKey(Single(goal)) == goal;
    }
  }

  /** De-duplicating a list without repeats changes nothing. */
  lemma {:induction false} DedupOfDistinct(s: seq<string>)
    requires NoDup(s)
    ensures Dedup(s) == s
  {
    if s != [] {
      var front := s[..|s| - 1];
      assert NoDup(front) by {
        assert forall k :: 0 <= k < |front| ==> front[k] == s[k];
      }
      DedupOfDistinct(front);
      assert s[|s| - 1] !in front by {
        assert forall k :: 0 <= k < |front| ==> front[k] == s[k];
      }
      assert s == front + [s[|s| - 1]];
    }
  }
}
