/** The detailed results page: the mood score from the query string is
    classified into five bands, each with four recommendations, a referral
    flag and, in the last band only, an urgency flag. */
module Results {
  import MoodTest
  import opened Wrappers

  /** What `getDetailedAnalysis` returns (colours and icon left out). A band
      without an `urgent` property reads as `false`. */
  datatype DetailedAnalysis = DetailedAnalysis(
    level: string,
    description: string,
    recommendations: seq<string>,
    needsProfessionalHelp: bool,
    urgent: bool)

  const Excellent := DetailedAnalysis(
    "Excellent Mental Health",
    "You're experiencing very positive mental health with high levels of well-being.",
    [
      "Continue your current self-care practices",
      "Maintain healthy lifestyle habits",
      "Consider sharing your positive strategies with others",
      "Regular check-ins to maintain this level"
    ],
    false, false)

  const Good := DetailedAnalysis(
    "Good Mental Health",
    "You're generally doing well with mostly positive emotions and good coping skills.",
    [
      "Keep up your current wellness routine",
      "Practice mindfulness and stress management",
      "Stay connected with supportive relationships",
      "Monitor for any changes in mood patterns"
    ],
    false, false)

  const Fair := DetailedAnalysis(
    "Fair Mental Health",
    "You're experiencing some emotional ups and downs, which is normal but worth monitoring.",
    [
      "Focus on stress reduction techniques",
      "Establish regular sleep and exercise routines",
      "Consider talking to friends, family, or a counselor",
      "Practice self-care activities you enjoy"
    ],
    false, false)

  const Concerning := DetailedAnalysis(
    "Concerning Mental Health",
    "You're experiencing significant emotional challenges that may benefit from additional support.",
    [
      "Consider speaking with a mental health professional",
      "Reach out to trusted friends or family members",
      "Practice daily self-care and stress management",
      "Avoid isolation and maintain social connections"
    ],
    true, false)

  const NeedsImmediateAttention := DetailedAnalysis(
    "Needs Immediate Attention",
    "You're experiencing significant mental health challenges that require professional support.",
    [
      "Seek professional help from a licensed therapist or counselor",
      "Contact your healthcare provider",
      "Reach out to crisis support if needed",
      "Don't face this alone - support is available"
    ],
    true, true)

  /** `getDetailedAnalysis`: the first band whose `>=` test holds. */
  function GetDetailedAnalysis(score: real): (r: DetailedAnalysis)
    ensures r in Bands
    ensures r.urgent ==> r.needsProfessionalHelp
    ensures |r.recommendations| == 4
  {
    if score >= 4.5 then Excellent
    else if score >= 3.5 then Good
    else if score >= 2.5 then Fair
    else if score >= 1.5 then Concerning
    else NeedsImmediateAttention
  }

  /** The bands from worst (0) to best (4). */
  const Bands: seq<DetailedAnalysis> := [NeedsImmediateAttention, Concerning, Fair, Good, Excellent]

  /** The lower end of each band in `Bands`, read off the ranges rather than
      the cascade: band k holds the scores from its own bound up to the next. */
  ghost predicate InDetailedBand(k: int, score: real) {
    (k == 0 && score < 1.5) ||
    (k == 1 && 1.5 <= score < 2.5) ||
    (k == 2 && 2.5 <= score < 3.5) ||
    (k == 3 && 3.5 <= score < 4.5) ||
    (k == 4 && 4.5 <= score)
  }

  /** Every real score lies in exactly one band's range, and the cascade
      returns that band. */
  lemma DetailedBandsPartition(score: real)
    ensures exists k :: 0 <= k < 5 && InDetailedBand(k, score)
    ensures forall k1, k2 :: InDetailedBand(k1, score) && InDetailedBand(k2, score) ==> k1 == k2
    ensures forall k :: 0 <= k < 5 && InDetailedBand(k, score) ==> GetDetailedAnalysis(score) == Bands[k]
  {
    if score < 1.5 {
      assert InDetailedBand(0, score);
    } else if score < 2.5 {
      assert InDetailedBand(1, score);
    } else if score < 3.5 {
      assert InDetailedBand(2, score);
    } else if score < 4.5 {
      assert InDetailedBand(3, score);
    } else {
      assert InDetailedBand(4, score);
    }
  }

  /** The rank of a band: its position in `Bands`. */
  function DetailedRank(a: DetailedAnalysis): (k: int)
    ensures 0 <= k < 5
    ensures a in Bands ==> Bands[k] == a
  {
    if a == Excellent then 4
    else if a == Good then 3
    else if a == Fair then 2
    else if a == Concerning then 1
    else 0
  }

  /** A higher score never yields a worse band. */
  lemma DetailedMonotone(s1: real, s2: real)
    requires s1 <= s2
    ensures DetailedRank(GetDetailedAnalysis(s1)) <= DetailedRank(GetDetailedAnalysis(s2))
  {
  }

  /** The flags: referral exactly below 2.5, urgency exactly below 1.5, so
      urgency implies referral; every band carries four recommendations. */
  lemma DetailedFlags(score: real)
    ensures GetDetailedAnalysis(score).needsProfessionalHelp <==> score < 2.5
    ensures GetDetailedAnalysis(score).urgent <==> score < 1.5
    ensures GetDetailedAnalysis(score).urgent ==> GetDetailedAnalysis(score).needsProfessionalHelp
    ensures |GetDetailedAnalysis(score).recommendations| == 4
  {
  }

  /** The score the page classifies: the `score` query parameter, with
      `searchParams.get("score") || "0"` turning an absent or empty parameter
      into "0", then `Number.parseFloat`, which is passed in. */
  function ScoreFromParam(raw: Option<string>, parseFloat: string -> real): (score: real)
    ensures raw == None || raw == Some("") ==> score == parseFloat("0")
    ensures raw.Some? && raw.value != "" ==> score == parseFloat(raw.value)
  {
    parseFloat(if raw == None || raw == Some("") then "0" else raw.value)
  }

  /** Without a score parameter the page shows the last band, urgent. */
  lemma MissingScoreIsUrgent(parseFloat: string -> real)
    requires parseFloat("0") == 0.0
    ensures GetDetailedAnalysis(ScoreFromParam(None, parseFloat)) == NeedsImmediateAttention
    ensures GetDetailedAnalysis(ScoreFromParam(Some(""), parseFloat)).urgent
  {
  }

  /** The results page and the mood tool cut the score at the same four
      thresholds: the detailed band has the rank of the mood tool's level. */
  lemma SameThresholdsAsMoodTool(score: real)
    ensures DetailedRank(GetDetailedAnalysis(score)) == MoodTest.MoodRank(MoodTest.GetMoodAnalysis(score))
  {
  }
}
