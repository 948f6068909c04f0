/** The child well-being check: five questions scored 0..3, questions 2, 3
    and 5 shown with the reverse label table, bands at 5 and 10, professional
    help recommended in the bottom band. */
module ChildAssessment {
  import opened Likert

  const Questions: seq<Question> := [
    Question(1, "Does the child seem happy or enjoy activities?", "mood", false),
    Question(2, "Does the child have trouble sleeping or seem tired?", "sleep", true),
    Question(3, "Does the child get upset or angry easily?", "behavior", true),
    Question(4, "Does the child interact well with friends or family?", "social", false),
    Question(5, "Does the child seem worried or anxious about things?", "anxiety", true)
  ]

  const Options: seq<AnswerOption> := [
    AnswerOption("0", "Never", 0),
    AnswerOption("1", "Rarely", 1),
    AnswerOption("2", "Sometimes", 2),
    AnswerOption("3", "Often", 3)
  ]

  const ReverseOptions: seq<AnswerOption> := [
    AnswerOption("0", "Always", 0),
    AnswerOption("1", "Often", 1),
    AnswerOption("2", "Sometimes", 2),
    AnswerOption("3", "Rarely", 3)
  ]

  const SignificantConcerns := Analysis(
    "Significant Concerns",
    "Noticeable mood or behavior issues. We recommend consulting a child therapist.",
    [
      "Schedule an appointment with a child psychologist or therapist",
      "Speak with your child's pediatrician",
      "Create a consistent daily routine for your child",
      "Practice patience and provide extra emotional support",
      "Consider family therapy if family dynamics are involved"
    ],
    true)

  const ModerateConcerns := Analysis(
    "Moderate Concerns",
    "Some challenges present. Try self-help strategies like a consistent routine and reassess in 2 weeks. If unchanged, seek therapy.",
    [
      "Establish consistent bedtime and daily routines",
      "Increase one-on-one quality time with your child",
      "Practice positive reinforcement and praise",
      "Monitor screen time and ensure physical activity",
      "Consider talking to school counselors or teachers"
    ],
    false)

  const GoodAdjustment := Analysis(
    "Good Adjustment",
    "Positive mood and behavior! Maintain with supportive activities or check-ins.",
    [
      "Continue your current positive parenting practices",
      "Maintain regular family activities and bonding time",
      "Encourage your child's interests and hobbies",
      "Keep open communication with your child",
      "Regular check-ins to maintain this positive state"
    ],
    false)

  const Child := Assessment(Questions, Options, ReverseOptions, 5, 10, SignificantConcerns, ModerateConcerns, GoodAdjustment, 15)

  /** The page's constants meet the wizard's assumptions; the printed maximum
      15 is three points for each of the five questions. */
  lemma ChildIsValid()
    ensures ValidAssessment(Child)
    ensures |Child.questions| == 5 && Child.maxScore == 3 * |Questions| == 15
  {
  }

  /** Questions 2, 3 and 5 are reverse-labelled. The reverse flag changes
      which label sits at a position, not the score a position stores: the
      label "Often" stores 3 on a forward question and 1 on a reverse one,
      "Rarely" stores 1 and 3. */
  lemma ChildReverseIsLabelsOnly(k: int, position: int)
    requires 0 <= k < 5 && 0 <= position < 4
    ensures Questions[k].reverse <==> Questions[k].id in {2, 3, 5}
    ensures ValidAssessment(Child) && StoredScore(Child, k, position) == position
    ensures OptionsFor(Child, Questions[0])[3].caption == "Often" && StoredScore(Child, 0, 3) == 3
    ensures OptionsFor(Child, Questions[1])[1].caption == "Often" && StoredScore(Child, 1, 1) == 1
    ensures OptionsFor(Child, Questions[0])[1].caption == "Rarely" && StoredScore(Child, 0, 1) == 1
    ensures OptionsFor(Child, Questions[1])[3].caption == "Rarely" && StoredScore(Child, 1, 3) == 3
  {
    ChildIsValid();
  }

  /** Bands: at most 5 "Significant Concerns", 6..10 "Moderate Concerns",
      11 and above "Good Adjustment"; five recommendations each. */
  lemma ChildBands(score: int)
    ensures GetResultAnalysis(Child, score).level == "Significant Concerns" <==> score <= 5
    ensures GetResultAnalysis(Child, score).level == "Moderate Concerns" <==> 6 <= score <= 10
    ensures GetResultAnalysis(Child, score).level == "Good Adjustment" <==> 11 <= score
    ensures |GetResultAnalysis(Child, score).recommendations| == 5
  {
  }

  /** Professional help is recommended exactly when the score is at most 5. */
  lemma ChildHelpAntitone(s1: int, s2: int)
    ensures GetResultAnalysis(Child, s1).needsProfessionalHelp <==> s1 <= 5
    ensures s1 <= s2 && GetResultAnalysis(Child, s2).needsProfessionalHelp ==>
              GetResultAnalysis(Child, s1).needsProfessionalHelp
  {
  }
}
