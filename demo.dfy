/** The demo assessment page: three questions scored 0..3 (maximum 9), bands
    at 2 and 5, professional help recommended in the top band, four
    recommendations per band. */
module DemoAssessment {
  import opened Likert

  const Questions: seq<Question> := [
    Question(1, "Over the last 2 weeks, how often have you been bothered by feeling nervous, anxious, or on edge?", "anxiety", false),
    Question(2, "Over the last 2 weeks, how often have you had little interest or pleasure in doing things?", "depression", false),
    Question(3, "Over the last 2 weeks, how often have you been bothered by feeling down, depressed, or hopeless?", "depression", false)
  ]

  const Options: seq<AnswerOption> := [
    AnswerOption("0", "Not at all", 0),
    AnswerOption("1", "Several days", 1),
    AnswerOption("2", "More than half the days", 2),
    AnswerOption("3", "Nearly every day", 3)
  ]

  const Minimal := Analysis(
    "Minimal",
    "You may be experiencing minimal symptoms. Continue with self-care practices.",
    [
      "Practice daily mindfulness or meditation",
      "Maintain regular exercise routine",
      "Keep a mood journal",
      "Ensure adequate sleep (7-9 hours)"
    ],
    false)

  const MildToModerate := Analysis(
    "Mild to Moderate",
    "Symptoms are noticeable. Consider self-help strategies and monitor for improvement.",
    [
      "Try mindfulness apps or guided meditation",
      "Consider online therapy or counseling",
      "Establish a daily routine",
      "Practice stress management techniques"
    ],
    false)

  const ModerateToSevere := Analysis(
    "Moderate to Severe",
    "Significant symptoms detected. We recommend consulting a professional therapist.",
    [
      "Schedule an appointment with a mental health professional",
      "Consider therapy (CBT, DBT, or other evidence-based treatments)",
      "Speak with your primary care physician",
      "Join a support group"
    ],
    true)

  const Demo := Assessment(Questions, Options, [], 2, 5, Minimal, MildToModerate, ModerateToSevere, 9)

  /** The page's constants meet the wizard's assumptions; the printed maximum
      9 is three points for each of the three questions. */
  lemma DemoIsValid()
    ensures ValidAssessment(Demo)
    ensures |Demo.questions| == 3 && Demo.maxScore == 9
  {
  }

  /** Bands: at most 2 "Minimal", 3..5 "Mild to Moderate", 6 and above
      "Moderate to Severe"; every band returns exactly four recommendations. */
  lemma DemoBands(score: int)
    ensures GetResultAnalysis(Demo, score).level == "Minimal" <==> score <= 2
    ensures GetResultAnalysis(Demo, score).level == "Mild to Moderate" <==> 3 <= score <= 5
    ensures GetResultAnalysis(Demo, score).level == "Moderate to Severe" <==> 6 <= score
    ensures |GetResultAnalysis(Demo, score).recommendations| == 4
  {
  }

  /** Professional help is recommended exactly in the top band. */
  lemma DemoHelpMonotone(s1: int, s2: int)
    ensures GetResultAnalysis(Demo, s1).needsProfessionalHelp <==> s1 >= 6
    ensures s1 <= s2 && GetResultAnalysis(Demo, s1).needsProfessionalHelp ==>
              GetResultAnalysis(Demo, s2).needsProfessionalHelp
  {
  }
}
