/** The answers the questionnaire collects, as the recommendation engine reads them from
    `userAnswers`. */
module Answers {
  import Strings

  /** A stored answer: never set (`undefined`), the string of a single-select button, or the
      array a multi-select question keeps. */
  datatype Answer = Absent | Single(value: string) | Multi(values: seq<string>)

  /** One answer per question key, in the order the questions are asked. */
  datatype AnswerSet = AnswerSet(
    fitnessLevel: Answer,
    primaryGoal: Answer,
    timeAvailability: Answer,
    trainingStyle: Answer,
    daysPerWeek: Answer,
    activityLevel: Answer,
    motivation: Answer,
    timeline: Answer)

  /** The answer set of a quiz in which nothing was answered. */
  const Unanswered := AnswerSet(Absent, Absent, Absent, Absent, Absent, Absent, Absent, Absent)

  /** `answer === lit`: strict equality holds only for a string with the same characters;
      `undefined` and every array fail it. */
  predicate Is(answer: Answer, lit: string)
  {
    answer == Single(lit)
  }

  /** The property name `table[answer]` looks up: `undefined` becomes "undefined" and an
      array becomes its elements joined with ",". */
  function PropertyKey(answer: Answer): string
  {
    match answer
    case Absent => "undefined"
    case Single(s) => s
    case Multi(xs) => Strings.Join(xs, ",")
  }

  /** `table[answer] || fallback`, for a table whose entries are all non-empty (so truthy). */
  function LookupOr(table: map<string, string>, answer: Answer, fallback: string): (r: string)
    ensures r == fallback || r in table.Values
    ensures PropertyKey(answer) !in table ==> r == fallback
    ensures PropertyKey(answer) in table && table[PropertyKey(answer)] != "" ==>
      r == table[PropertyKey(answer)]
  {
    var key := PropertyKey(answer);
    if key in table && table[key] != "" then table[key] else fallback
  }
}
