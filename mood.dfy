/** The "How's my mood" tool: pick a time frame, then any number of emotions,
    each worth a fixed value 1..5; the score is the mean of the picked values
    and a top-down `>=` cascade names it. */
module MoodTest {
  import Tally

  datatype TimeFrame = TimeFrame(id: string, caption: string, description: string)

  const TimeFrames: seq<TimeFrame> := [
    TimeFrame("1week", "Last Week", "How have you been feeling in the past 7 days?"),
    TimeFrame("2weeks", "Last 2 Weeks", "How have you been feeling in the past 14 days?"),
    TimeFrame("4weeks", "Last 4 Weeks", "How have you been feeling in the past month?"),
    TimeFrame("3months", "Last 3 Months", "How have you been feeling in the past 3 months?")
  ]

  datatype MoodEmoji = MoodEmoji(emoji: string, caption: string, value: int, description: string)

  const MoodEmojis: seq<MoodEmoji> := [
    MoodEmoji("😊", "Very Happy", 5, "Feeling great and positive"),
    MoodEmoji("🙂", "Happy", 4, "Generally good mood"),
    MoodEmoji("😐", "Neutral", 3, "Neither good nor bad"),
    MoodEmoji("😔", "Sad", 2, "Feeling down or low"),
    MoodEmoji("😢", "Very Sad", 1, "Feeling very upset or depressed"),
    MoodEmoji("😰", "Anxious", 1, "Feeling worried or stressed"),
    MoodEmoji("😡", "Angry", 1, "Feeling frustrated or mad"),
    MoodEmoji("😴", "Tired", 2, "Feeling exhausted or drained")
  ]

  /** The two steps of `currentStep`: "timeframe" and "mood". */
  datatype Step = TimeframeStep | MoodStep

  /** What `getMoodAnalysis` returns (colour left out). */
  datatype MoodAnalysis = MoodAnalysis(level: string, description: string)

  ghost predicate IsTimeFrameId(id: string) {
    exists i :: 0 <= i < |TimeFrames| && TimeFrames[i].id == id
  }

  /** The pair a mood card hands to `handleMoodSelect`. */
  ghost predicate IsMoodEntry(emoji: string, value: int) {
    exists i :: 0 <= i < |MoodEmojis| && MoodEmojis[i].emoji == emoji && MoodEmojis[i].value == value
  }

  /** Every emoji carries a value in 1..5, and no emoji appears twice, so a
      selected emoji determines its value. */
  lemma MoodEmojiTable()
    ensures forall i :: 0 <= i < |MoodEmojis| ==> 1 <= MoodEmojis[i].value <= 5
    ensures forall i, j :: 0 <= i < j < |MoodEmojis| ==> MoodEmojis[i].emoji != MoodEmojis[j].emoji
    ensures forall e, v :: IsMoodEntry(e, v) ==> 1 <= v <= 5
  {
  }

  /** The score `calculateMoodScore` computes: 0 for an empty selection,
      otherwise the mean of the selected values. */
  ghost function MoodScore(selected: map<string, int>): (s: real)
    ensures selected == map[] ==> s == 0.0
    ensures selected != map[] ==> s * (|selected| as real) == Tally.MapSum(selected) as real
  {
    if |selected| == 0 then 0.0 else (Tally.MapSum(selected) as real) / (|selected| as real)
  }

  lemma MeanBounds(sum: int, count: int)
    requires count > 0 && count <= sum <= 5 * count
    ensures 1.0 <= (sum as real) / (count as real) <= 5.0
  {
    var q, c := (sum as real) / (count as real), count as real;
    assert q * c == sum as real;
    if q < 1.0 {
      ProductPositive(1.0 - q, c);
    }
    if q > 5.0 {
      ProductPositive(q - 5.0, c);
      assert (q - 5.0) * c == q * c - 5.0 * c;
    }
  }

  lemma ProductPositive(x: real, y: real)
    requires x > 0.0 && y > 0.0
    ensures x * y > 0.0
  {
  }

  /** A non-empty selection of table values scores between 1 and 5. */
  lemma MoodScoreBounds(selected: map<string, int>)
    requires selected != map[]
    requires forall e :: e in selected ==> 1 <= selected[e] <= 5
    ensures 1.0 <= MoodScore(selected) <= 5.0
  {
    Tally.MapSumBounds(selected, 1, 5);
    MeanBounds(Tally.MapSum(selected), |selected|);
  }

  /** `getMoodAnalysis`: the first of `>= 4.5`, `>= 3.5`, `>= 2.5`, `>= 1.5`
      that holds, otherwise "Needs Attention". */
  function GetMoodAnalysis(score: real): (r: MoodAnalysis)
    ensures r.level in ["Excellent", "Good", "Fair", "Concerning", "Needs Attention"]
    ensures r.level == "Needs Attention" <==> score < 1.5
  {
    if score >= 4.5 then MoodAnalysis("Excellent", "You're doing great!")
    else if score >= 3.5 then MoodAnalysis("Good", "Generally positive mood")
    else if score >= 2.5 then MoodAnalysis("Fair", "Some ups and downs")
    else if score >= 1.5 then MoodAnalysis("Concerning", "Consider seeking support")
    else MoodAnalysis("Needs Attention", "Professional help recommended")
  }

  /** The position of a level from worst (0) to best (4). */
  function MoodRank(a: MoodAnalysis): int {
    match a.level
    case "Excellent" => 4
    case "Good" => 3
    case "Fair" => 2
    case "Concerning" => 1
    case _ => 0
  }

  /** Each score gets one of the five levels, fixed by the interval it is in,
      and a higher score never gets a worse level. */
  lemma MoodBands(s1: real, s2: real)
    ensures GetMoodAnalysis(s1).level == "Excellent" <==> s1 >= 4.5
    ensures GetMoodAnalysis(s1).level == "Good" <==> 3.5 <= s1 < 4.5
    ensures GetMoodAnalysis(s1).level == "Fair" <==> 2.5 <= s1 < 3.5
    ensures GetMoodAnalysis(s1).level == "Concerning" <==> 1.5 <= s1 < 2.5
    ensures GetMoodAnalysis(s1).level == "Needs Attention" <==> s1 < 1.5
    ensures s1 <= s2 ==> MoodRank(GetMoodAnalysis(s1)) <= MoodRank(GetMoodAnalysis(s2))
  {
  }

  /** The same cascade on the integers, with `mean >= t/2` written as
      `2 * sum >= t * count`. */
  function MoodAnalysisByCounts(sum: int, count: int): MoodAnalysis {
    if 2 * sum >= 9 * count then GetMoodAnalysis(4.5)
    else if 2 * sum >= 7 * count then GetMoodAnalysis(3.5)
    else if 2 * sum >= 5 * count then GetMoodAnalysis(2.5)
    else if 2 * sum >= 3 * count then GetMoodAnalysis(1.5)
    else GetMoodAnalysis(0.0)
  }

  lemma MeanAtLeastHalf(sum: int, count: int, t: int)
    requires count > 0
    ensures (sum as real) / (count as real) >= (t as real) / 2.0 <==> 2 * sum >= t * count
  {
    var q := (sum as real) / (count as real);
    assert q * (count as real) == sum as real;
    if 2 * sum >= t * count {
      if q < (t as real) / 2.0 {
        assert q * (count as real) < (t as real) / 2.0 * (count as real);
      }
    } else {
      if q >= (t as real) / 2.0 {
        assert q * (count as real) >= (t as real) / 2.0 * (count as real);
      }
    }
  }

  /** The level of a non-empty selection's mean depends only on integer
      comparisons of its sum and its size, so no rounding of the division can
      move a selection across a threshold. */
  lemma MoodAnalysisCrossMultiplied(selected: map<string, int>)
    requires selected != map[]
    ensures GetMoodAnalysis(MoodScore(selected)) == MoodAnalysisByCounts(Tally.MapSum(selected), |selected|)
  {
    var s, c := Tally.MapSum(selected), |selected|;
    MeanAtLeastHalf(s, c, 9);
    MeanAtLeastHalf(s, c, 7);
    MeanAtLeastHalf(s, c, 5);
    MeanAtLeastHalf(s, c, 3);
  }

  class MoodTool {
    var selectedTimeFrame: string
    var selectedMoods: map<string, int>
    var currentStep: Step

    /** On the time-frame step nothing is chosen yet; on the mood step a time
        frame of the table is chosen; every selected mood is an emoji of the
        table with its own value. */
    ghost predicate Valid()
      reads this
    {
      (forall e :: e in selectedMoods ==> IsMoodEntry(e, selectedMoods[e])) &&
      (currentStep == TimeframeStep ==> selectedTimeFrame == "" && selectedMoods == map[]) &&
      (currentStep == MoodStep ==> IsTimeFrameId(selectedTimeFrame))
    }

    constructor ()
      ensures Valid()
      ensures selectedTimeFrame == "" && selectedMoods == map[] && currentStep == TimeframeStep
    {
      selectedTimeFrame := "";
      selectedMoods := map[];
      currentStep := TimeframeStep;
    }

    /** `handleTimeFrameSelect`: records the time frame and moves to the mood
        step; the tool stays valid exactly when it is a time frame of the table. */
    method HandleTimeFrameSelect(timeFrame: string)
      requires Valid()
      modifies this
      ensures selectedTimeFrame == timeFrame && currentStep == MoodStep
      ensures selectedMoods == old(selectedMoods)
      ensures Valid() <==> IsTimeFrameId(timeFrame)
    {
      selectedTimeFrame := timeFrame;
      currentStep := MoodStep;
    }

    /** `handleMoodSelect`: sets one entry and leaves the others; it never
        deselects, and picking the same emoji again changes nothing. The tool
        stays valid exactly when a mood card of the mood step made the call. */
    method HandleMoodSelect(emoji: string, value: int)
      requires Valid()
      modifies this
      ensures selectedMoods == old(selectedMoods)[emoji := value]
      ensures emoji in selectedMoods && |selectedMoods| >= |old(selectedMoods)|
      ensures old(emoji in selectedMoods && selectedMoods[emoji] == value) ==> selectedMoods == old(selectedMoods)
      ensures selectedTimeFrame == old(selectedTimeFrame) && currentStep == old(currentStep)
      ensures Valid() <==> currentStep == MoodStep && IsMoodEntry(emoji, value)
    {
      selectedMoods := selectedMoods[emoji := value];
    }

    /** The Start Over button: back to the time-frame step with nothing chosen. */
    method StartOver()
      modifies this
      ensures Valid()
      ensures currentStep == TimeframeStep && selectedMoods == map[] && selectedTimeFrame == ""
    {
      currentStep := TimeframeStep;
      selectedMoods := map[];
      selectedTimeFrame := "";
    }

    /** `calculateMoodScore`: 0 for an empty selection, otherwise the sum of
        the selected values divided by their number. */
    method CalculateMoodScore() returns (score: real)
      ensures score == MoodScore(selectedMoods)
      ensures selectedMoods == map[] ==> score == 0.0
    {
      if |selectedMoods| == 0 {
        return 0.0;
      }
      var sum := Tally.SumValues(selectedMoods);
      score := (sum as real) / (|selectedMoods| as real);
    }

    /** The analysis panel, rendered only once some emotion is selected: the
        score lies in [1, 5] and the level is the cascade's, which the integer
        comparisons of sum and count decide alike. */
    method Analysis() returns (score: real, analysis: MoodAnalysis)
      requires Valid() && |selectedMoods| > 0
      ensures 1.0 <= score <= 5.0
      ensures score == MoodScore(selectedMoods)
      ensures analysis == GetMoodAnalysis(score)
      ensures analysis == MoodAnalysisByCounts(Tally.MapSum(selectedMoods), |selectedMoods|)
    {
      score := CalculateMoodScore();
      MoodEmojiTable();
      MoodScoreBounds(selectedMoods);
      MoodAnalysisCrossMultiplied(selectedMoods);
      analysis := GetMoodAnalysis(score);
    }
  }
}
