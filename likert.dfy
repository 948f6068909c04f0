/** The question wizard and the three-band classifier that the individual,
    couples, family, child and demo assessment pages each repeat with their
    own constants. One `Assessment` value holds one page's constants. */
module Likert {
  import Tally
  import opened Wrappers

  datatype Question = Question(id: int, text: string, category: string, reverse: bool)

  /** One radio option: `value` is the string handed to `Number.parseInt`;
      `score` is a field of the option table that the page never reads. */
  datatype AnswerOption = AnswerOption(value: string, caption: string, score: int)

  /** What `getResultAnalysis` returns (colours left out). */
  datatype Analysis = Analysis(
    level: string,
    description: string,
    recommendations: seq<string>,
    needsProfessionalHelp: bool)

  /** The constants of one assessment page. `getResultAnalysis` is
      `score <= lowCut ? low : score <= midCut ? mid : high`; `maxScore` is the
      denominator the results card prints. Pages without a `reverseOptions`
      table carry `[]` there and flag no question `reverse`. */
  datatype Assessment = Assessment(
    questions: seq<Question>,
    options: seq<AnswerOption>,
    reverseOptions: seq<AnswerOption>,
    lowCut: int,
    midCut: int,
    low: Analysis,
    mid: Analysis,
    high: Analysis,
    maxScore: int)

  // ---------------------------------------------------------------------------
  // Option tables and Number.parseInt

  /** The one-character string of a decimal digit. */
  function DigitString(n: int): string
    requires 0 <= n <= 9
  {
    [('0' as int + n) as char]
  }

  /** `Number.parseInt` on a one-digit string, the only strings an option
      table hands it. */
  function ParseDigit(s: string): (n: int)
    requires |s| == 1 && '0' <= s[0] <= '9'
    ensures 0 <= n <= 9 && DigitString(n) == s
  {
    s[0] as int - '0' as int
  }

  lemma ParseDigitString(n: int)
    requires 0 <= n <= 9
    ensures ParseDigit(DigitString(n)) == n
  {
  }

  /** An option table as every page writes one: four options whose value is
      the digit of their position and whose score is that position. */
  ghost predicate WellFormedOptions(opts: seq<AnswerOption>) {
    |opts| == 4 &&
    forall i :: 0 <= i < 4 ==> opts[i].value == DigitString(i) && opts[i].score == i
  }

  ghost predicate IsQuestionId(a: Assessment, id: int) {
    exists i :: 0 <= i < |a.questions| && a.questions[i].id == id
  }

  function Ids(a: Assessment): (ids: seq<int>)
    ensures |ids| == |a.questions|
    ensures forall i :: 0 <= i < |ids| ==> ids[i] == a.questions[i].id
  {
    seq(|a.questions|, i requires 0 <= i < |a.questions| => a.questions[i].id)
  }

  /** The constants every page satisfies: at least one question, distinct ids,
      well-formed option tables, increasing cut-offs and a printed maximum of
      three points per question. */
  ghost predicate ValidAssessment(a: Assessment) {
    |a.questions| > 0 &&
    Tally.Distinct(Ids(a)) &&
    WellFormedOptions(a.options) &&
    (forall i :: 0 <= i < |a.questions| && a.questions[i].reverse ==> WellFormedOptions(a.reverseOptions)) &&
    a.lowCut < a.midCut &&
    a.maxScore == 3 * |a.questions|
  }

  /** The table the page renders for a question:
      `questions[currentQuestion].reverse ? reverseOptions : options`. */
  function OptionsFor(a: Assessment, q: Question): (opts: seq<AnswerOption>)
    ensures opts == a.options || opts == a.reverseOptions
    ensures ValidAssessment(a) && q in a.questions ==> WellFormedOptions(opts)
  {
    if q.reverse then a.reverseOptions else a.options
  }

  /** The score stored when the option at `position` is picked for question
      `k`: `Number.parseInt(option.value)`. The `reverse` flag only chooses
      the label table; the stored score is the option's position either way,
      and it agrees with the table's own `score` field. */
  function StoredScore(a: Assessment, k: int, position: int): (s: int)
    requires ValidAssessment(a) && 0 <= k < |a.questions| && 0 <= position < 4
    ensures s == position
    ensures s == OptionsFor(a, a.questions[k])[position].score
    ensures 0 <= s <= 3
  {
    ParseDigit(OptionsFor(a, a.questions[k])[position].value)
  }

  // ---------------------------------------------------------------------------
  // Classification

  /** `getResultAnalysis`: a cascade of `<=` tests on the total. */
  function GetResultAnalysis(a: Assessment, score: int): (r: Analysis)
    ensures r == a.low || r == a.mid || r == a.high
  {
    if score <= a.lowCut then a.low
    else if score <= a.midCut then a.mid
    else a.high
  }

  /** The band a score falls in, 0 (lowest scores) to 2, read off the ranges
      rather than the cascade. */
  ghost predicate InBand(a: Assessment, band: int, score: int) {
    (band == 0 && score <= a.lowCut) ||
    (band == 1 && a.lowCut < score <= a.midCut) ||
    (band == 2 && a.midCut < score)
  }

  function BandAnalysis(a: Assessment, band: int): Analysis
    requires 0 <= band < 3
  {
    [a.low, a.mid, a.high][band]
  }

  /** With increasing cut-offs the ranges partition the integers, and the
      cascade returns the analysis of the one band the score is in. */
  lemma BandsPartition(a: Assessment, score: int)
    requires a.lowCut < a.midCut
    ensures exists band :: 0 <= band < 3 && InBand(a, band, score)
    ensures forall b1, b2 :: InBand(a, b1, score) && InBand(a, b2, score) ==> b1 == b2
    ensures forall band :: 0 <= band < 3 && InBand(a, band, score) ==>
              GetResultAnalysis(a, score) == BandAnalysis(a, band)
  {
    if score <= a.lowCut {
      assert InBand(a, 0, score);
    } else if score <= a.midCut {
      assert InBand(a, 1, score);
    } else {
      assert InBand(a, 2, score);
    }
  }

  /** A higher total never lands in a lower band. */
  lemma BandMonotone(a: Assessment, s1: int, s2: int, b1: int, b2: int)
    requires a.lowCut < a.midCut && s1 <= s2 && InBand(a, b1, s1) && InBand(a, b2, s2)
    ensures b1 <= b2
  {
  }

  // ---------------------------------------------------------------------------
  // The wizard

  class Wizard {
    const assessment: Assessment
    var currentQuestion: int
    var answers: map<int, int>
    var showResults: bool

    /** The state the page keeps between renders: the cursor is on a question,
        every stored answer belongs to a question and is an option value, every
        question before the cursor is answered, and the results view is only
        ever entered with every question answered. */
    ghost predicate Valid()
      reads this
    {
      ValidAssessment(assessment) &&
      0 <= currentQuestion < |assessment.questions| &&
      (forall id :: id in answers ==> IsQuestionId(assessment, id) && 0 <= answers[id] <= 3) &&
      (forall i :: 0 <= i < currentQuestion ==> assessment.questions[i].id in answers) &&
      (showResults ==> AllAnswered())
    }

    ghost predicate AllAnswered()
      reads this
    {
      forall i :: 0 <= i < |assessment.questions| ==> assessment.questions[i].id in answers
    }

    function CurrentId(): int
      reads this
      requires 0 <= currentQuestion < |assessment.questions|
    {
      assessment.questions[currentQuestion].id
    }

    /** The Next button's `disabled` attribute, read as JavaScript reads
        `!answers[id] && answers[id] !== 0`: an absent entry is `undefined`
        (falsy), a stored 0 is falsy but excepted. It is disabled exactly when
        the current question has no stored answer, a stored 0 included. */
    function NextDisabled(): (disabled: bool)
      reads this
      requires 0 <= currentQuestion < |assessment.questions|
      ensures disabled <==> CurrentId() !in answers
    {
      var v := if CurrentId() in answers then Some(answers[CurrentId()]) else None;
      var truthy := v.Some? && v.value != 0;
      !truthy && v != Some(0)
    }

    constructor (a: Assessment)
      requires ValidAssessment(a)
      ensures Valid()
      ensures assessment == a && currentQuestion == 0 && answers == map[] && !showResults
    {
      assessment := a;
      currentQuestion := 0;
      answers := map[];
      showResults := false;
    }

    /** `handleAnswer(questionId, score)`: writes or overwrites one entry and
        touches nothing else. The wizard stays valid exactly when the entry
        is a question id with an option value. */
    method HandleAnswer(questionId: int, score: int)
      requires Valid()
      modifies this
      ensures answers == old(answers)[questionId := score]
      ensures answers.Keys == old(answers).Keys + {questionId}
      ensures currentQuestion == old(currentQuestion) && showResults == old(showResults)
      ensures Valid() <==> IsQuestionId(assessment, questionId) && 0 <= score <= 3
    {
      answers := answers[questionId := score];
    }

    /** The radio group's `onValueChange`: the option at `position` of the
        table shown for the current question is parsed and stored under the
        current question's id. */
    method SelectOption(position: int)
      requires Valid() && 0 <= position < 4
      modifies this
      ensures Valid()
      ensures answers == old(answers)[old(CurrentId()) := position]
      ensures currentQuestion == old(currentQuestion) && showResults == old(showResults)
      ensures !NextDisabled()
    {
      var score := StoredScore(assessment, currentQuestion, position);
      HandleAnswer(CurrentId(), score);
    }

    /** `nextQuestion`: advances the cursor, or on the last question switches
        to the results view. The wizard stays valid exactly when the Next
        button was enabled. */
    method NextQuestion()
      requires Valid()
      modifies this
      ensures answers == old(answers)
      ensures old(currentQuestion) < |assessment.questions| - 1 ==>
                currentQuestion == old(currentQuestion) + 1 && showResults == old(showResults)
      ensures old(currentQuestion) == |assessment.questions| - 1 ==>
                currentQuestion == old(currentQuestion) && showResults
      ensures 0 <= currentQuestion < |assessment.questions|
      ensures Valid() <==> !old(NextDisabled())
    {
      if currentQuestion < |assessment.questions| - 1 {
        currentQuestion := currentQuestion + 1;
      } else {
        showResults := true;
      }
      if !Valid() {
        assert old(NextDisabled());
      }
    }

    /** The Next ("Get Results" on the last question) button: a click on the
        disabled button does nothing. */
    method ClickNext()
      requires Valid()
      modifies this
      ensures Valid()
      ensures answers == old(answers)
      ensures old(NextDisabled()) ==>
                currentQuestion == old(currentQuestion) && showResults == old(showResults)
      ensures !old(NextDisabled()) && old(currentQuestion) < |assessment.questions| - 1 ==>
                currentQuestion == old(currentQuestion) + 1 && showResults == old(showResults)
      ensures !old(NextDisabled()) && old(currentQuestion) == |assessment.questions| - 1 ==>
                currentQuestion == old(currentQuestion) && showResults
    {
      if !NextDisabled() {
        NextQuestion();
      }
    }

    /** `prevQuestion`: steps back, and does nothing on the first question. */
    method PrevQuestion()
      requires Valid()
      modifies this
      ensures Valid()
      ensures currentQuestion == if old(currentQuestion) > 0 then old(currentQuestion) - 1 else old(currentQuestion)
      ensures answers == old(answers) && showResults == old(showResults)
    {
      if currentQuestion > 0 {
        currentQuestion := currentQuestion - 1;
      }
    }

    /** `calculateScore`: the sum of the stored answers, 0 when there are none. */
    method CalculateScore() returns (total: int)
      ensures total == Tally.MapSum(answers)
      ensures answers == map[] ==> total == 0
    {
      total := Tally.SumValues(answers);
    }

    /** The results view: the total is the sum of one answer per question in
        question order, it lies between 0 and the printed maximum, and the
        analysis shown is the classifier's. */
    method Results() returns (total: int, analysis: Analysis)
      requires Valid() && showResults
      ensures total == Tally.SumAlong(answers, Ids(assessment))
      ensures 0 <= total <= assessment.maxScore
      ensures analysis == GetResultAnalysis(assessment, total)
    {
      total := CalculateScore();
      var ids := Ids(assessment);
      forall k | k in ids
        ensures k in answers
      {
        var i :| 0 <= i < |ids| && ids[i] == k;
      }
      forall k | k in answers
        ensures k in ids
      {
        assert IsQuestionId(assessment, k);
        var i :| 0 <= i < |assessment.questions| && assessment.questions[i].id == k;
        assert ids[i] == k;
      }
      Tally.MapSumAlong(answers, ids);
      Tally.SumAlongBounds(answers, ids, 0, 3);
      analysis := GetResultAnalysis(assessment, total);
    }
  }
}
