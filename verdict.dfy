/** The dual-mechanism verdict rule of SecurityEngine.analyze: two best
    matches (jailbreak style, harmful topic) and two thresholds reduced to
    one verdict, a recommendation, and the categories shown to the user. */
module Verdict {
  import opened Matching

  datatype Status = Safe | Flagged | Blocked {
    /** The verdict string of the response. */
    function Label(): string
    {
      match this
      case Safe => "SAFE"
      case Flagged => "FLAGGED"
      case Blocked => "BLOCKED"
    }
  }

  /** Both block thresholds as the engine sets them. */
  const DefaultThreshold: real := 0.70
  /** Above this a score is suspicious even when it does not block. */
  const SuspicionFloor: real := 0.5
  /** At or below this no category is shown for a mechanism. */
  const DisplayFloor: real := 0.3

  const SafeNotice := "Prompt appears safe to process."
  const ReviewNotice := "Review required. Content is borderline."

  function HarmNotice(category: string): string
  {
    "Flagged as harmful content (" + category + "). Do not process."
  }

  function JailbreakNotice(category: string): string
  {
    "Potential Jailbreak attempt detected (" + category + "). Reset conversation context."
  }

  /** The verdict as a rule over the two scores alone: blocked when either
      mechanism is over its threshold, flagged when neither is but one is over
      the suspicion floor, safe otherwise. */
  function Classify(jbScore: real, harmScore: real, jbThreshold: real, harmThreshold: real): Status
  {
    if harmScore > harmThreshold || jbScore > jbThreshold then Blocked
    else if harmScore > SuspicionFloor || jbScore > SuspicionFloor then Flagged
    else Safe
  }

  datatype Decision = Decision(verdict: Status, recommendation: string)

  /** The source's first-match-wins chain: harm is tested before jailbreak,
      then the suspicion floor; the recommendation names the category of the
      branch that fired. */
  function Decide(jbScore: real, jbCategory: string, harmScore: real, harmCategory: string,
                  jbThreshold: real, harmThreshold: real): (d: Decision)
    ensures d.verdict == Classify(jbScore, harmScore, jbThreshold, harmThreshold)
    ensures d.verdict == Safe ==> d.recommendation == SafeNotice
    ensures d.verdict == Flagged ==> d.recommendation == ReviewNotice
  {
    if harmScore > harmThreshold then Decision(Blocked, HarmNotice(harmCategory))
    else if jbScore > jbThreshold then Decision(Blocked, JailbreakNotice(jbCategory))
    else if harmScore > SuspicionFloor || jbScore > SuspicionFloor then Decision(Flagged, ReviewNotice)
    else Decision(Safe, SafeNotice)
  }

  /** The three verdicts partition the score space. */
  lemma Trichotomy(jbScore: real, jbCategory: string, harmScore: real, harmCategory: string,
                   jbThreshold: real, harmThreshold: real)
    ensures var v := Decide(jbScore, jbCategory, harmScore, harmCategory, jbThreshold, harmThreshold).verdict;
            && (v == Blocked <==> harmScore > harmThreshold || jbScore > jbThreshold)
            && (v == Flagged <==> harmScore <= harmThreshold && jbScore <= jbThreshold &&
                                  (harmScore > 0.5 || jbScore > 0.5))
            && (v == Safe <==> harmScore <= harmThreshold && jbScore <= jbThreshold &&
                               harmScore <= 0.5 && jbScore <= 0.5)
  {
  }

  /** Harm is checked first: over its threshold it blocks with the harm
      recommendation, whatever the jailbreak score. */
  lemma HarmTakesPrecedence(jbScore: real, jbCategory: string, harmScore: real, harmCategory: string,
                            jbThreshold: real, harmThreshold: real)
    requires harmScore > harmThreshold
    ensures Decide(jbScore, jbCategory, harmScore, harmCategory, jbThreshold, harmThreshold)
            == Decision(Blocked, HarmNotice(harmCategory))
  {
  }

  /** Without a harm block, a jailbreak score over its threshold blocks with
      the jailbreak recommendation. */
  lemma JailbreakBlocksOtherwise(jbScore: real, jbCategory: string, harmScore: real, harmCategory: string,
                                 jbThreshold: real, harmThreshold: real)
    requires harmScore <= harmThreshold && jbScore > jbThreshold
    ensures Decide(jbScore, jbCategory, harmScore, harmCategory, jbThreshold, harmThreshold)
            == Decision(Blocked, JailbreakNotice(jbCategory))
  {
  }

  /** A harm score equal to its threshold does not take the harm branch: the
      decision falls through to the jailbreak branch and the floor. */
  lemma HarmThresholdIsStrict(jbScore: real, jbCategory: string, harmCategory: string,
                              jbThreshold: real, harmThreshold: real)
    ensures Decide(jbScore, jbCategory, harmThreshold, harmCategory, jbThreshold, harmThreshold)
            == if jbScore > jbThreshold then Decision(Blocked, JailbreakNotice(jbCategory))
               else if harmThreshold > 0.5 || jbScore > 0.5 then Decision(Flagged, ReviewNotice)
               else Decision(Safe, SafeNotice)
  {
  }

  /** A jailbreak score equal to its threshold never blocks by itself. */
  lemma JailbreakThresholdIsStrict(jbCategory: string, harmScore: real, harmCategory: string,
                                   jbThreshold: real, harmThreshold: real)
    requires harmScore <= harmThreshold
    ensures Decide(jbThreshold, jbCategory, harmScore, harmCategory, jbThreshold, harmThreshold).verdict != Blocked
  {
  }

  /** Scores exactly at the suspicion floor, below both thresholds, are safe. */
  lemma SuspicionFloorIsStrict(jbCategory: string, harmCategory: string,
                               jbThreshold: real, harmThreshold: real)
    requires jbThreshold >= 0.5 && harmThreshold >= 0.5
    ensures Decide(0.5, jbCategory, 0.5, harmCategory, jbThreshold, harmThreshold) == Decision(Safe, SafeNotice)
  {
  }

  /** The categories reach only the recommendation text, never the verdict. */
  lemma VerdictIgnoresCategories(jbScore: real, harmScore: real, jbThreshold: real, harmThreshold: real,
                                 jbCat1: string, harmCat1: string, jbCat2: string, harmCat2: string)
    ensures Decide(jbScore, jbCat1, harmScore, harmCat1, jbThreshold, harmThreshold).verdict
            == Decide(jbScore, jbCat2, harmScore, harmCat2, jbThreshold, harmThreshold).verdict
  {
  }

  /** A mechanism's category as shown: only when its score is over the
      display floor. */
  function Displayed(score: real, category: string): string
  {
    if score > DisplayFloor then category else "None"
  }

  /** The record analyze returns (scores unrounded); `verdict` holds the
      response's verdict string. */
  datatype Analysis = Analysis(jailbreakScore: real, jailbreakCategory: string,
                               harmfulnessScore: real, harmfulnessCategory: string,
                               verdict: string, recommendation: string)

  /** analyze's result for two best matches: the scores as matched, each
      category shown by its own score alone, and the verdict taken from the
      scores before any category is hidden. */
  function Report(jb: Match, harm: Match, jbThreshold: real, harmThreshold: real): (a: Analysis)
    ensures a.jailbreakScore == jb.score && a.harmfulnessScore == harm.score
    ensures a.verdict == Classify(jb.score, harm.score, jbThreshold, harmThreshold).Label()
    ensures a.recommendation ==
              Decide(jb.score, jb.category, harm.score, harm.category, jbThreshold, harmThreshold).recommendation
    ensures jb.score > 0.3 ==> a.jailbreakCategory == jb.category
    ensures jb.score <= 0.3 ==> a.jailbreakCategory == "None"
    ensures harm.score > 0.3 ==> a.harmfulnessCategory == harm.category
    ensures harm.score <= 0.3 ==> a.harmfulnessCategory == "None"
  {
    var d := Decide(jb.score, jb.category, harm.score, harm.category, jbThreshold, harmThreshold);
    Analysis(jb.score, Displayed(jb.score, jb.category),
             harm.score, Displayed(harm.score, harm.category),
             d.verdict.Label(), d.recommendation)
  }

  /** The worked examples, with the default thresholds. */
  lemma ExampleScenarios(jbCategory: string, harmCategory: string)
    ensures Report(Match(0.1, jbCategory), Match(0.82, harmCategory), 0.70, 0.70)
            == Analysis(0.1, "None", 0.82, harmCategory, "BLOCKED", HarmNotice(harmCategory))
    ensures Report(Match(0.2, jbCategory), Match(0.55, harmCategory), 0.70, 0.70).verdict == "FLAGGED"
    ensures Report(Match(0.05, jbCategory), Match(0.1, harmCategory), 0.70, 0.70)
            == Analysis(0.05, "None", 0.1, "None", "SAFE", SafeNotice)
    ensures Report(Match(0.2, jbCategory), Match(0.70, harmCategory), 0.70, 0.70).verdict == "FLAGGED"
  {
  }
}
