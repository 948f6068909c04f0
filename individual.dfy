/** The individual assessment page: five symptom questions scored 0..3,
    bands at 4 and 9, professional help recommended in the top band. */
module IndividualAssessment {
  import opened Likert

  const Questions: seq<Question> := [
    Question(1, "Feeling nervous, anxious, or on edge?", "anxiety", false),
    Question(2, "Little interest or pleasure in doing things?", "depression", false),
    Question(3, "Feeling down, depressed, or hopeless?", "depression", false),
    Question(4, "Trouble relaxing or feeling restless?", "anxiety", false),
    Question(5, "Feeling tired or having little energy?", "general", false)
  ]

  const Options: seq<AnswerOption> := [
    AnswerOption("0", "Not at all", 0),
    AnswerOption("1", "Several days", 1),
    AnswerOption("2", "More than half the days", 2),
    AnswerOption("3", "Nearly every day", 3)
  ]

  const Minimal := Analysis(
    "Minimal",
    "You may be experiencing mild symptoms. Try self-help strategies like deep breathing, exercise, or journaling.",
    [
      "Practice daily mindfulness or meditation",
      "Maintain regular exercise routine",
      "Keep a mood journal",
      "Ensure adequate sleep (7-9 hours)",
      "Stay connected with supportive friends and family"
    ],
    false)

  const MildToModerate := Analysis(
    "Mild to Moderate",
    "Symptoms are noticeable. Consider self-help strategies and monitor for 2 weeks. If no improvement, seek professional help.",
    [
      "Try mindfulness apps or guided meditation",
      "Consider online therapy or counseling",
      "Establish a daily routine",
      "Limit alcohol and caffeine",
      "Practice stress management techniques"
    ],
    false)

  const ModerateToSevere := Analysis(
    "Moderate to Severe",
    "Significant symptoms detected. We strongly recommend consulting a professional therapist for support.",
    [
      "Schedule an appointment with a mental health professional",
      "Consider therapy (CBT, DBT, or other evidence-based treatments)",
      "Speak with your primary care physician",
      "Join a support group",
      "Create a safety plan if needed"
    ],
    true)

  const Individual := Assessment(Questions, Options, [], 4, 9, Minimal, MildToModerate, ModerateToSevere, 15)

  /** The page's constants meet the wizard's assumptions; in particular the
      printed maximum 15 is three points for each of the five questions. */
  lemma IndividualIsValid()
    ensures ValidAssessment(Individual)
    ensures |Individual.questions| == 5 && Individual.maxScore == 15
  {
  }

  /** Bands: at most 4 is "Minimal", 5..9 "Mild to Moderate", 10 and above
      "Moderate to Severe"; each band has five recommendations. */
  lemma IndividualBands(score: int)
    ensures GetResultAnalysis(Individual, score).level == "Minimal" <==> score <= 4
    ensures GetResultAnalysis(Individual, score).level == "Mild to Moderate" <==> 5 <= score <= 9
    ensures GetResultAnalysis(Individual, score).level == "Moderate to Severe" <==> 10 <= score
    ensures |GetResultAnalysis(Individual, score).recommendations| == 5
  {
  }

  /** Professional help is recommended exactly in the top band, so the flag
      never switches off as the score grows. */
  lemma IndividualHelpMonotone(s1: int, s2: int)
    ensures GetResultAnalysis(Individual, s1).needsProfessionalHelp <==> s1 >= 10
    ensures s1 <= s2 && GetResultAnalysis(Individual, s1).needsProfessionalHelp ==>
              GetResultAnalysis(Individual, s2).needsProfessionalHelp
  {
  }
}
