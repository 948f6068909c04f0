/** The couples relationship check: five questions scored 0..3 on one forward
    option table, bands at 5 and 10, professional help recommended in the
    BOTTOM band (a low score means low satisfaction). */
module CouplesAssessment {
  import opened Likert

  const Questions: seq<Question> := [
    Question(1, "How often do you and your partner communicate openly about your feelings?", "communication", false),
    Question(2, "Do you feel you can trust your partner with personal matters?", "trust", false),
    Question(3, "How easily do you resolve conflicts with your partner?", "conflict", false),
    Question(4, "Do you feel satisfied with the support you receive from your partner?", "support", false),
    Question(5, "How often do arguments lead to better understanding?", "conflict", false)
  ]

  const Options: seq<AnswerOption> := [
    AnswerOption("0", "Never / Not at all", 0),
    AnswerOption("1", "Rarely / Somewhat", 1),
    AnswerOption("2", "Sometimes / Mostly", 2),
    AnswerOption("3", "Often / Completely", 3)
  ]

  const LowSatisfaction := Analysis(
    "Low Satisfaction",
    "Significant challenges in communication, trust, or conflict resolution. We recommend seeking professional couples therapy.",
    [
      "Schedule couples therapy sessions",
      "Practice active listening exercises",
      "Set aside dedicated time for meaningful conversations",
      "Work on building trust through small, consistent actions",
      "Learn healthy conflict resolution techniques"
    ],
    true)

  const ModerateSatisfaction := Analysis(
    "Moderate Satisfaction",
    "Some issues may exist. Try self-help strategies like active listening exercises and revisit in 2 weeks. If unchanged, consider therapy.",
    [
      "Practice daily check-ins with your partner",
      "Try couples communication exercises",
      "Read relationship self-help books together",
      "Plan regular date nights and quality time",
      "Consider couples workshops or online resources"
    ],
    false)

  const HighSatisfaction := Analysis(
    "High Satisfaction",
    "Strong foundation! Maintain it with occasional check-ins or self-help tools.",
    [
      "Continue your current positive relationship practices",
      "Regular relationship check-ins to maintain connection",
      "Explore new activities together to keep growing",
      "Practice gratitude and appreciation exercises",
      "Consider being mentors to other couples"
    ],
    false)

  const Couples := Assessment(Questions, Options, [], 5, 10, LowSatisfaction, ModerateSatisfaction, HighSatisfaction, 15)

  /** The page's constants meet the wizard's assumptions; every question uses
      the forward table, whose stored score is the option value. */
  lemma CouplesIsValid()
    ensures ValidAssessment(Couples)
    ensures |Couples.questions| == 5 && Couples.maxScore == 15
    ensures forall q :: q in Couples.questions ==> OptionsFor(Couples, q) == Options
  {
  }

  /** Bands: at most 5 "Low Satisfaction", 6..10 "Moderate Satisfaction",
      11 and above "High Satisfaction"; five recommendations each. */
  lemma CouplesBands(score: int)
    ensures GetResultAnalysis(Couples, score).level == "Low Satisfaction" <==> score <= 5
    ensures GetResultAnalysis(Couples, score).level == "Moderate Satisfaction" <==> 6 <= score <= 10
    ensures GetResultAnalysis(Couples, score).level == "High Satisfaction" <==> 11 <= score
    ensures |GetResultAnalysis(Couples, score).recommendations| == 5
  {
  }

  /** Professional help is recommended exactly when the score is at most 5,
      so the flag never switches on as the score grows. */
  lemma CouplesHelpAntitone(s1: int, s2: int)
    ensures GetResultAnalysis(Couples, s1).needsProfessionalHelp <==> s1 <= 5
    ensures s1 <= s2 && GetResultAnalysis(Couples, s2).needsProfessionalHelp ==>
              GetResultAnalysis(Couples, s1).needsProfessionalHelp
  {
  }
}
