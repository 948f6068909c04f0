/** The family dynamics check: five questions scored 0..3, question 3 shown
    with the reverse label table, bands at 5 and 10, professional help
    recommended in the bottom band. */
module FamilyAssessment {
  import opened Likert

  const Questions: seq<Question> := [
    Question(1, "Do family members share responsibilities fairly?", "responsibilities", false),
    Question(2, "Do you feel emotionally supported by your family?", "support", false),
    Question(3, "Are there frequent disagreements about family roles (e.g., parenting, decision-making)?", "roles", true),
    Question(4, "Do family members listen to each other during discussions?", "communication", false),
    Question(5, "Do you feel your family works together to solve problems?", "teamwork", false)
  ]

  const Options: seq<AnswerOption> := [
    AnswerOption("0", "Never / Not at all", 0),
    AnswerOption("1", "Rarely / Somewhat", 1),
    AnswerOption("2", "Sometimes / Mostly", 2),
    AnswerOption("3", "Often / Completely", 3)
  ]

  const ReverseOptions: seq<AnswerOption> := [
    AnswerOption("0", "Always", 0),
    AnswerOption("1", "Often", 1),
    AnswerOption("2", "Sometimes", 2),
    AnswerOption("3", "Rarely", 3)
  ]

  const LowHarmony := Analysis(
    "Low Harmony",
    "Significant issues with roles or support. We recommend professional family therapy.",
    [
      "Schedule family therapy sessions",
      "Hold regular family meetings to discuss issues",
      "Establish clear family roles and responsibilities",
      "Practice active listening during family discussions",
      "Work on conflict resolution skills as a family unit"
    ],
    true)

  const ModerateHarmony := Analysis(
    "Moderate Harmony",
    "Some challenges exist. Try self-help activities like family meetings and reassess in 2 weeks. If unchanged, consider therapy.",
    [
      "Hold weekly family meetings to improve communication",
      "Create a family charter with shared values and goals",
      "Practice family bonding activities together",
      "Establish fair chore and responsibility systems",
      "Work on listening skills and empathy within the family"
    ],
    false)

  const HighHarmony := Analysis(
    "High Harmony",
    "Strong family dynamics! Maintain with regular check-ins or self-help resources.",
    [
      "Continue your positive family practices",
      "Regular family check-ins to maintain connection",
      "Celebrate family achievements and milestones",
      "Model healthy communication for other families",
      "Consider volunteering together as a family"
    ],
    false)

  const Family := Assessment(Questions, Options, ReverseOptions, 5, 10, LowHarmony, ModerateHarmony, HighHarmony, 15)

  lemma FamilyIsValid()
    ensures ValidAssessment(Family)
    ensures |Family.questions| == 5 && Family.maxScore == 15
  {
  }

  /** Only question 3 is reverse-labelled. Its table differs from the forward
      one in every label, yet picking the option at a given position stores
      the same score as on a forward question: the position, with no `3 - i`. */
  lemma FamilyReverseIsLabelsOnly(k: int, position: int)
    requires 0 <= k < 5 && 0 <= position < 4
    ensures Questions[k].reverse <==> Questions[k].id == 3
    ensures Questions[k].reverse ==> OptionsFor(Family, Questions[k])[position].caption != Options[position].caption
    ensures ValidAssessment(Family) && StoredScore(Family, k, position) == StoredScore(Family, 0, position) == position
  {
    FamilyIsValid();
  }

  /** Bands: at most 5 "Low Harmony", 6..10 "Moderate Harmony", 11 and above
      "High Harmony"; five recommendations each. */
  lemma FamilyBands(score: int)
    ensures GetResultAnalysis(Family, score).level == "Low Harmony" <==> score <= 5
    ensures GetResultAnalysis(Family, score).level == "Moderate Harmony" <==> 6 <= score <= 10
    ensures GetResultAnalysis(Family, score).level == "High Harmony" <==> 11 <= score
    ensures |GetResultAnalysis(Family, score).recommendations| == 5
  {
  }

  /** Professional help is recommended exactly when the score is at most 5. */
  lemma FamilyHelpAntitone(s1: int, s2: int)
    ensures GetResultAnalysis(Family, s1).needsProfessionalHelp <==> s1 <= 5
    ensures s1 <= s2 && GetResultAnalysis(Family, s2).needsProfessionalHelp ==>
              GetResultAnalysis(Family, s1).needsProfessionalHelp
  {
  }
}
