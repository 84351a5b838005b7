# Fitness goal-setting quiz: the recommendation engine

The quiz in `script.js` lists eight questions but shows only the first seven, because
`totalQuestions` is 7. So the timeline question is never asked. Every answer is stored in
`userAnswers`: the string value of a single-select button, or the list a multi-select
question keeps.
From those answers the results page builds one object:

- **primary goal**: the goal text and the motivation text joined with a space and trimmed;
- **schedule**, **workout types** and **duration**: table lookups that fall back to a fixed
  entry. For several goals the workout types are the union, in first-seen order, of each
  goal's comma-separated types;
- **recommended classes**: every catalog class gets an integer score from six criteria. The
  classes are sorted by descending score, the first six are kept, and those scoring 0 or
  less are dropped;
- **key recommendations**: six criteria each push their tips in a fixed order, and the first
  four are kept.

It also models the list logic of a multi-select question. A click removes a chosen value,
or appends a new one while fewer than two are chosen.

## Modules

| module | file | what it holds |
|---|---|---|
| `Answers` | `answers.dfy` | the `Answer` datatype (`Absent`, `Single`, `Multi`); `===` against a literal; the property key that `table[answer]` reads; `table[key] \|\| fallback` |
| `Collections` | `collections.dfy` | `slice(0, n)`, `indexOf`, `splice(i, 1)` |
| `Strings` | `strings.dfy` | `join`, `split`, and `trim` with JavaScript's whitespace set |
| `Catalog` | `catalog.dfy` | the 22 classes of `allClasses`, in definition order, with their tags |
| `Scoring` | `scoring.dfy` | the per-class score: a function, the loop body as one method per criterion, and the loop over the catalog |
| `Ranking` | `ranking.dfy` | the stable descending sort, the cut to six and the positive filter, over any score list |
| `Descriptions` | `descriptions.dfy` | goal and motivation texts, schedule, duration, and the workout-type mapping and union |
| `Tips` | `tips.dfy` | the six tip tables and the push-then-slice of `keyRecs` |
| `Engine` | `engine.dfy` | `generateRecommendedClasses` and `generateRecommendations` as a whole |
| `MultiSelect` | `multiselect.dfy` | the selection list of `handleMultiSelect`, as a class with one field |

## Modelling choices

- A stored answer is `Absent` (never set), `Single(v)` or `Multi(vs)`. `answer === 'x'` is
  `answer == Single("x")`, so `undefined` and every array fail each comparison. A table
  lookup `table[answer]` reads the property key JavaScript would produce: "undefined" for a
  missing answer, and the elements joined with "," for an array.
- Scores are a sequence indexed by catalog position. `Object.keys` lists the catalog keys and
  the `scores` keys in definition order, so that order is the initial order of the sort.
- `Array.prototype.sort` is modelled as a stable insertion sort, by descending score.
  `Ranking.AnyStableSortAgrees` shows that any permutation ordered by descending score, with
  ties in catalog order, is that same list. So the precise sorting algorithm does not matter.
- The workout-type table is stored as token lists; each mapping string is the join of its
  tokens with ", ". `Descriptions.MappingSplits` shows that splitting the string on ", "
  gives the tokens back, which the union loop relies on. A JavaScript `Set` becomes
  `Descriptions.Dedup`: members in first-insertion order, without repeats.
- The six tip tables form a `Tips.TipRules` value. The tip functions and the method take the
  rules as a parameter, and the engine passes `Tips.Rules`, the tables the code writes out.
  The general lemmas hold for any tables. The table-specific lemmas name the program's
  tables.
- The catalog in the code has 22 entries: `Catalog.KeysDistinct` states the count.
- The timeline answer is never set by the quiz flow, so it is always `Absent` when the
  results are built. The model keeps `timeline` in the answer set anyway, with the tips the
  code would push for it: the tip lemmas hold for every answer set.
- The style branch of both the scoring and the tips tests "mix_both". No button offers that
  value; the button is "combination". The model keeps the code's literal, and
  `Scoring.StyleBonuses` and `Tips.SilentValues` state the consequence: "combination",
  "with_trainer" and "with_friend" add no points and no tips.

## Model

| member | source | states |
|---|---|---|
| Answers.Is | script.js:376 | `answer === 'x'` holds only for the single answer "x", never for a missing answer or an array; `Scoring.ArrayAnswersScoreNothing` and `Tips.UnrecognisedPushesNothing` state the consequence |
| Answers.PropertyKey | script.js:332 | the property name `table[answer]` reads: the value itself, "undefined" for a missing answer, the elements joined with "," for an array; `Descriptions.MissingAnswerFallsBack` states that "undefined" is in no table |
| Answers.LookupOr | script.js:332 | `table[key] \|\| fallback`: the table's entry when the key is present with a non-empty entry, and the fallback otherwise, in particular whenever the key is missing |
| Collections.Take | script.js:686 | `slice(0, n)` keeps `min(n, length)` elements, and they are a prefix of the input |
| Collections.IndexOf | script.js:144 | `indexOf` is -1 exactly when the value is absent; otherwise it is the position of the first occurrence |
| Collections.RemoveAtMultiset | script.js:146 | `splice(index, 1)` removes exactly one occurrence of the value at `index` and keeps every other element |
| Collections.RemoveAtNoDup | script.js:146 | removing an entry from a list without repeats leaves a list without repeats that no longer holds the value |
| Strings.Join | script.js:309 | `join(sep)`: the elements with `sep` between them; `Strings.SplitJoin` shows `Split` undoes it and `Strings.JoinNoEdge` that it keeps clean texts clean |
| Strings.Split | script.js:350 | `split(sep)` with a non-empty separator always yields at least one piece; `Strings.SplitJoin` shows it inverts `Join` |
| Strings.SplitJoin | script.js:350 | splitting on `sep` the join of a non-empty token list gives the tokens back, provided no token holds the separator's first character |
| Strings.Trim | script.js:324 | `trim()` leaves no whitespace at either end, and its result is the input minus an all-whitespace prefix and suffix |
| Strings.TrimNoEdge | script.js:324 | trimming a string with no edge whitespace returns it unchanged |
| Strings.TrimSpaceJoined | script.js:324 | for clean `a` and `b`, trimming `a + " " + b` gives `a`, `b` or `a + " " + b`, depending on which is empty |
| Strings.JoinNoEdge | script.js:308-309 | joining clean non-empty texts gives a clean text, empty exactly when there were no texts |
| Catalog.KeysDistinct | script.js:480-591 | the catalog has 22 classes and no two share a key |
| Catalog.YogaTagUnused | script.js:480-591 | no catalog class carries the tag "yoga" |
| Catalog.SpecializedTagUnused | script.js:480-591 | no catalog class carries the tag "specialized" |
| Scoring.FitnessPoints | script.js:601-614 | the fitness-level block's contribution for one class; `Scoring.AddFitnessPoints` adds it and `Scoring.UnansweredScoresZero` shows it is 0 for a missing answer |
| Scoring.GoalPoints | script.js:616-634 | the goal block's contribution; `Scoring.AddGoalPoints` adds it, `Scoring.ArrayAnswersScoreNothing` shows an array goal, whatever the motivation, scores like no goal and `Scoring.DeadBonuses` that "flexibility" never earns the "yoga" bonus |
| Scoring.StylePoints | script.js:636-643 | the style block's flat contribution; `Scoring.StyleBonuses` gives its value for every button and `Scoring.StyleShiftsAllScores` shows it shifts every class alike |
| Scoring.DaysPoints | script.js:645-653 | the days block's contribution; `Scoring.AddDaysPoints` adds it and `Scoring.DeadBonuses` shows "5+" gives 0 on every catalog class |
| Scoring.MotivationPoints | script.js:655-669 | the motivation block's contribution; `Scoring.AddMotivationPoints` adds it and `Scoring.ArrayAnswersScoreNothing` shows an array motivation, whatever the goal, scores like no motivation |
| Scoring.ActivityPoints | script.js:671-677 | the activity block's contribution; `Scoring.AddActivityPoints` adds it and `Scoring.UnansweredScoresZero` shows it is 0 for a missing answer |
| Scoring.Score | script.js:599-679 | one class's `score`: the sum of the six blocks; `Scoring.ScoreClass` computes it from 0 block by block |
| Scoring.Scores | script.js:594-679 | the `scores` dictionary, one score per catalog position; `Scoring.ComputeScores` fills it in `Object.keys` order and `Scoring.StyleShiftsAllScores` relates two of them |
| Scoring.AddFitnessPoints | script.js:601-614 | the fitness-level block adds exactly that level's bonuses for the class's tags |
| Scoring.AddGoalPoints | script.js:616-634 | the goal block adds exactly that goal's bonuses |
| Scoring.AddStylePoints | script.js:636-643 | the style block adds 2, -1, 1 or 0, whatever the tags |
| Scoring.AddDaysPoints | script.js:645-653 | the days block adds exactly that answer's bonuses |
| Scoring.AddMotivationPoints | script.js:655-669 | the motivation block adds exactly that motivation's bonuses |
| Scoring.AddActivityPoints | script.js:671-677 | the activity block adds exactly that level's bonuses |
| Scoring.ScoreClass | script.js:598-679 | one class's `score`, starting at 0 and bumped by each block, equals the sum of the six criteria's contributions |
| Scoring.ComputeScores | script.js:597-680 | the scoring loop stores, for every catalog class, the score of its tags |
| Scoring.StyleShiftsAllScores | script.js:636-643 | changing the training style shifts every class's score by the same amount |
| Scoring.StyleBonuses | script.js:636-643 | the style bonus is 2 for "coach_led", -1 for "gym_alone", 1 for "mix_both", and 0 for each other button value |
| Scoring.DeadBonuses | script.js:628-652 | the "yoga" bonus of the flexibility goal and the "specialized" bonus of five or more days never apply to a catalog class |
| Scoring.ArrayAnswersScoreNothing | script.js:616-669 | an array goal scores exactly like an unanswered goal, an array motivation like an unanswered motivation, each with the other answers as they are, and both arrays like both unanswered |
| Scoring.UnansweredScoresZero | script.js:597-680 | with nothing answered every class scores 0 |
| Scoring.StyleAloneScores | script.js:597-680 | with only the style answered, every class scores the style bonus |
| Ranking.Positions | script.js:683 | `Object.keys(scores)`: the catalog positions `0, 1, ..., n - 1` in definition order |
| Ranking.Insert | script.js:683 | one insertion step of the sort adds exactly the inserted position |
| Ranking.InsertRanked | script.js:683 | inserting an earlier catalog position, one that comes before every entry of a ranked list, keeps the list ranked |
| Ranking.SortByScore | script.js:683 | the sort is a permutation of its input |
| Ranking.SortRanked | script.js:683 | the sort of positions in catalog order yields descending scores, ties in catalog order |
| Ranking.Sorted | script.js:683 | the sorted keys; `Ranking.SortedFacts`, `Ranking.AnyStableSortAgrees` and `Ranking.SortedIndexIsOutranking` state that they are every position once, by descending score with ties in catalog order |
| Ranking.SortedFacts | script.js:683 | the sorted key list is ranked and holds every catalog position exactly once |
| Ranking.RankedUnique | script.js:683 | two ranked lists with the same members are equal |
| Ranking.AnyStableSortAgrees | script.js:683 | any stable descending sort of the positions gives the same list |
| Ranking.SortedIndexIsOutranking | script.js:683 | a class's place in the sorted list is the number of classes that outrank it |
| Ranking.ShiftKeepsOrder | script.js:683 | adding the same amount to every score leaves the sorted order unchanged |
| Ranking.FilterPositive | script.js:686 | the positive filter keeps only positions scoring above 0, from its input |
| Ranking.FilterMembers | script.js:686 | a position survives the filter exactly when it was in the input and scores above 0 |
| Ranking.FilterRankedIsPrefix | script.js:686 | on a ranked list the filter keeps a prefix: the positive entries lead and all later entries are non-positive |
| Ranking.TopPositions | script.js:686 | at most six positions are kept, each scoring above 0 |
| Ranking.TopIsRankedPrefix | script.js:683-686 | the kept positions are ranked and form a prefix of the sorted list |
| Ranking.TopMembership | script.js:683-686 | a class is kept exactly when it scores above 0 and fewer than six classes outrank it |
| Ranking.FilterRaisedExtends | script.js:686 | raising scores can only lengthen the filtered prefix of a list ranked under both |
| Ranking.RaiseExtendsTop | script.js:683-686 | raising every score by the same amount keeps the old top list as a prefix of the new one |
| Ranking.NoPositiveNoTop | script.js:686 | when no class scores above 0 nothing is kept |
| Descriptions.TokensWellFormed | script.js:335-341 | each goal's workout types have no repeats and no comma |
| Descriptions.MappingEntry | script.js:335-341 | each mapping entry is the non-empty join of its tokens with ", " |
| Descriptions.MappingSplits | script.js:350 | splitting a mapping entry on ", " gives back its tokens |
| Descriptions.MappedTexts | script.js:308 | `map(...).filter(Boolean)` yields at most one non-empty table text per key |
| Descriptions.MappedTextsKnown | script.js:308 | a known key with a non-empty entry contributes exactly that entry, ahead of the texts of the later keys |
| Descriptions.MappedTextsSkipUnknown | script.js:308 | an unknown key contributes no text, wherever it stands |
| Descriptions.GoalText | script.js:305-312 | `primaryGoalText`; `Descriptions.SingleGoalText`, `Descriptions.GoalTextHasNoEdgeWhitespace` and `Descriptions.MappedTextsKnown` state what it holds for a single goal and for an array |
| Descriptions.MotivationText | script.js:314-321 | `motivationText`, "" for an unknown single motivation; `Descriptions.MotivationTextHasNoEdgeWhitespace` and `Descriptions.GoalSummaryFallback` state its properties |
| Descriptions.GoalSummary | script.js:324 | the primary-goal field; `Descriptions.GoalSummaryJoins` and `Descriptions.GoalSummaryFallback` state what it is |
| Descriptions.ScheduleText | script.js:332 | the schedule field; `Descriptions.ScheduleKnown` and `Descriptions.ScheduleFallback` give it for a known and an unknown answer |
| Descriptions.DurationText | script.js:370 | the duration field; `Descriptions.DurationKnown` and `Descriptions.DurationFallback` give it for a known and an unknown answer |
| Descriptions.WorkoutTypes | script.js:344-356 | the workout-types field; `Descriptions.ResolveWorkoutTypes` computes it, and `Descriptions.WorkoutTypesFallback` and `Descriptions.OneGoalArrayAgrees` state its cases |
| Descriptions.GoalTokens | script.js:349-350 | the tokens a goal adds to the `Set`: its mapping's tokens when `workoutTypeMapping[goal]` is truthy, none otherwise; `Descriptions.UnionWorkoutTypes` states the union over them |
| Descriptions.AllGoalTokens | script.js:348-352 | every added token in `forEach` order, repeats included; `Descriptions.AllGoalTokensMembers` shows a token is in it exactly when some selected goal contributes it |
| Descriptions.SingleGoalText | script.js:310 | a single goal yields its own text when known, the general-health text otherwise, and never "" |
| Descriptions.GoalTextsClean | script.js:289-295 | every goal text is non-empty with no edge whitespace |
| Descriptions.MotivationTextsClean | script.js:297-302 | every motivation text is non-empty with no edge whitespace |
| Descriptions.GoalTextHasNoEdgeWhitespace | script.js:305-312 | the goal text never has edge whitespace; for an array it is empty exactly when no goal is known |
| Descriptions.MotivationTextHasNoEdgeWhitespace | script.js:314-321 | the motivation text never has edge whitespace |
| Descriptions.GoalSummaryJoins | script.js:324 | the primary-goal field is the goal text, the motivation text, or both joined with one space |
| Descriptions.GoalSummaryFallback | script.js:305-324 | an unknown single goal and motivation give exactly the general-health text |
| Descriptions.WorkoutTypesFallback | script.js:355 | an unknown single goal gets the general-health workout types |
| Descriptions.ScheduleKnown | script.js:332 | a days answer the table knows gets its own schedule |
| Descriptions.ScheduleFallback | script.js:332 | an unknown days answer gets the three-to-four-days schedule |
| Descriptions.DurationKnown | script.js:370 | a time answer the table knows gets its own duration |
| Descriptions.DurationFallback | script.js:370 | an unknown time answer gets the four-to-five-hours duration |
| Descriptions.MissingAnswerFallsBack | script.js:289-370 | a missing answer's key "undefined" is in none of the tables |
| Descriptions.Dedup | script.js:347-353 | the `Set` holds each contributed type once, and nothing else |
| Descriptions.DedupFirstSeenOrder | script.js:347-353 | types appear in the order of their first insertion |
| Descriptions.DedupOfDistinct | script.js:347-353 | a list without repeats passes through the `Set` unchanged |
| Descriptions.AllGoalTokensMembers | script.js:348-351 | a type is contributed exactly when some selected goal lists it |
| Descriptions.AddTypes | script.js:350 | adding one goal's split types to the `Set` yields the set of everything added so far |
| Descriptions.UnionWorkoutTypes | script.js:347-353 | the union loop gives the types of the selected goals, without repeats and in first-seen order |
| Descriptions.ResolveWorkoutTypes | script.js:344-356 | the workout-types field: the union for an array, the mapping with its fallback otherwise |
| Descriptions.OneGoalArrayAgrees | script.js:344-356 | an array holding one known goal gives the same types as that goal alone; an unknown one gives "" |
| Tips.BranchTips | script.js:376-469 | a criterion pushes its value's tips when the answer strictly equals a tested value, and nothing otherwise |
| Tips.Tips | script.js:373-469 | every tip `keyRecs` receives, criterion by criterion; `Tips.FirstTipsWin`, `Tips.ArrayAnswersAddNoTips` and `Tips.CollectKeyRecommendations` state its order and contents |
| Tips.KeyRecommendations | script.js:472-473 | the kept tips are at most four, and they are the first `min(4, total)` pushed |
| Tips.CollectKeyRecommendations | script.js:373-473 | pushing the six criteria's tips in order and slicing gives the key recommendations |
| Tips.UnrecognisedPushesNothing | script.js:376-469 | an answer none of a chain's tests matches, arrays included, pushes nothing |
| Tips.ArrayAnswersAddNoTips | script.js:391-457 | an array goal yields the same tips as no goal, an array motivation the same as no motivation, each with the other answers as they are, and both arrays the same as neither answered |
| Tips.FirstTipsWin | script.js:373-473 | the fitness tips lead and are kept whole when at most four; once fitness and goal push four, later criteria do not matter |
| Tips.BranchSize | script.js:376-469 | a criterion pushes all of its value's tips or none |
| Tips.FitnessTableSize | script.js:376-388 | every fitness level pushes three tips |
| Tips.GoalTableSize | script.js:391-407 | every goal with tips pushes three |
| Tips.StyleTableSize | script.js:410-422 | every style with tips pushes three |
| Tips.DaysTableSize | script.js:425-438 | one to two days pushes four tips; the other days answers push three |
| Tips.MotivationTableSize | script.js:441-457 | every motivation pushes three tips |
| Tips.TimelineTableSize | script.js:461-469 | every timeline with tips pushes three |
| Tips.FitnessTipsAlwaysKept | script.js:376-473 | a recognised fitness level's three tips are always the first three kept |
| Tips.SilentValues | script.js:391-469 | general health, "combination", "with_trainer", "with_friend", three and six months push no tips |
| Tips.DaysAloneFillsAll | script.js:376-473 | with fitness, goal and style unanswered and one to two days, the four days tips fill every slot |
| Engine.RecommendedClasses | script.js:683-688 | at most six entries, each from the catalog with a positive score, in non-increasing score order |
| Engine.EntriesAt | script.js:688 | `map(classKey => allClasses[classKey])`: the entries at the given positions, in order |
| Engine.GenerateRecommendedClasses | script.js:593-688 | the scoring loop, sort, slice, filter and map give the recommended classes |
| Engine.Recommendations | script.js:270-476 | the results object, field by field; `Engine.GenerateRecommendations` computes it |
| Engine.GenerateRecommendations | script.js:270-476 | the built object is the one its fields' specifications give, with at most six classes and four tips |
| Engine.RecommendedAreTopRanked | script.js:683-688 | the recommended classes are the positive-scoring prefix of the stable sort; a class is in it exactly when it scores above 0 and fewer than six outrank it |
| Engine.TrainingStyleKeepsOrder | script.js:636-683 | the training style never changes the sorted order |
| Engine.LargerStyleBonusExtends | script.js:636-686 | a larger style bonus keeps the old list as a prefix of the new |
| Engine.ArrayAnswersSameClasses | script.js:616-688 | an array goal recommends the same classes as no goal, an array motivation the same as no motivation, each with the other answers as they are, and both arrays the same as neither answered |
| Engine.EqualScoresKeepCatalogOrder | script.js:683 | equal scores leave the classes in catalog order |
| Engine.CoachLedAloneTakesFirstSix | script.js:597-688 | with only "coach_led" answered the first six catalog classes are recommended |
| Engine.GymAloneRecommendsNothing | script.js:597-688 | with only "gym_alone" answered no class is recommended |
| Engine.PositiveFilterKeepsAll | script.js:686 | the filter keeps a list whose entries all score above 0 |
| Engine.NothingAnsweredNoClasses | script.js:597-688 | with no scoring question answered no class is recommended |
| MultiSelect.Selection.constructor | script.js:134-136 | the first click finds an empty list |
| MultiSelect.Selection.Toggle | script.js:141-153 | a click removes the first occurrence of a chosen value, or appends a new one while fewer than two are chosen; the list stays short and free of repeats |
| MultiSelect.Toggled | script.js:141-153 | the list after one click; `MultiSelect.ToggledWellFormed`, `MultiSelect.ToggleFlips`, `MultiSelect.DeselectRemovesOne` and `MultiSelect.FullIgnoresNewValue` state what it does |
| MultiSelect.ToggledWellFormed | script.js:141-153 | a click keeps at most two values and no repeats |
| MultiSelect.FullIgnoresNewValue | script.js:148-153 | with two chosen, clicking a third changes nothing |
| MultiSelect.DeselectRemovesOne | script.js:141-147 | deselecting removes exactly one occurrence; earlier entries stay and later ones move up by one |
| MultiSelect.ToggleFlips | script.js:141-153 | a click flips whether its value is chosen, unless the list is full, and leaves every other value as it was |
| MultiSelect.SelectThenDeselect | script.js:141-153 | selecting a value and clicking it again restores the list |

## Left out

- The DOM and page flow: rendering questions and results, progress, timers and animations,
  the continue button's visibility, the download of `generatePlanContent`, and the
  trainer/friend notice. None of these affect the recommendation object.
- The class names and descriptions: catalog entries keep only their key and tags, which
  are all the engine reads.
- Property lookups through the object prototype, such as an answer equal to "toString" or
  "constructor". The model treats the tables as plain maps. No option value in `questions`
  (script.js:11-86) names an `Object.prototype` property, so plain maps are exact for every
  answer a button stores.
- MultiSelect.Selection.Toggle: the code branches on the button's `multi-selected` CSS
  class, not on list membership, and the model branches on membership. The two agree while
  the buttons stay marked as the list says. They part after `startQuiz` (script.js:172-176)
  or `restartQuiz` (script.js:692-700): both reset `userAnswers` to `{}` but leave the class
  on buttons chosen before. Clicking such a button takes the remove branch, finds the value
  at index -1, and leaves the new list unchanged, while `Toggled` appends the value. The
  model does not capture that path.
- The timeline question: `nextQuestion` (script.js:200-207) shows the results after the
  seventh question, so the quiz never sets that answer. The model keeps the answer and its
  tips, and leaves its absence to the caller.
- `Array.prototype.sort`'s internal algorithm: it is replaced by an insertion sort, and
  `Ranking.AnyStableSortAgrees` shows that every stable descending sort gives the same
  result. The comparator `scores[b] - scores[a]` is exact on the model's unbounded integers,
  as it is on the small scores the code produces.
- The second copy of the quiz, under `interactive goal setting/script.js`, is not part of
  this model.
