/** The risk label shown beside each of the top five predictions, and the one
    alert banner chosen from them. */
module Risk {
  import opened Values

  /** Scores above this are High risk. */
  const HighThreshold: real := 150.0
  /** Scores above this (and not above HighThreshold) are Moderate risk. */
  const ModerateThreshold: real := 80.0

  datatype Level = Low | Moderate | High

  /** The banner the page shows after the ranked list. */
  datatype Alert = HighRiskAlert | ModerateRiskAlert | StableNotice

  /** The three-way threshold test applied to one score. */
  function Classify(score: real): (level: Level)
    ensures level == High <==> score > HighThreshold
    ensures level == Moderate <==> ModerateThreshold < score <= HighThreshold
    ensures level == Low <==> score <= ModerateThreshold
  {
    if score > HighThreshold then High
    else if score > ModerateThreshold then Moderate
    else Low
  }

  function Severity(level: Level): nat
  {
    match level
    case Low => 0
    case Moderate => 1
    case High => 2
  }

  /** A higher score never gets a lower label; in particular the boundary
      scores themselves belong to the lower band. */
  lemma ClassifyMonotone(a: real, b: real)
    requires a <= b
    ensures Severity(Classify(a)) <= Severity(Classify(b))
    ensures Classify(HighThreshold) == Moderate && Classify(ModerateThreshold) == Low
  {
  }

  /** The more severe of two labels. */
  function Worse(a: Level, b: Level): Level
  {
    if Severity(a) >= Severity(b) then a else b
  }

  /** The most severe label among the entries of `top` (Low when there are none). */
  function Severest(top: seq<Prediction>): (level: Level)
    ensures level == High <==> exists i :: 0 <= i < |top| && top[i].score > HighThreshold
    ensures level != Low <==> exists i :: 0 <= i < |top| && top[i].score > ModerateThreshold
  {
    if top == [] then Low
    else
      var rest := Severest(top[1..]);
      assert forall i :: 1 <= i < |top| ==> top[i] == top[1..][i - 1];
      assert forall i :: 0 <= i < |top[1..]| ==> top[1..][i] == top[i + 1];
      Worse(Classify(top[0].score), rest)
  }

  /** Exactly one banner, chosen by priority: High if some entry is above 150,
      else Moderate if some entry is above 80, else the stable notice. */
  function AlertFor(top: seq<Prediction>): (alert: Alert)
    ensures alert == HighRiskAlert <==> exists i :: 0 <= i < |top| && top[i].score > HighThreshold
    ensures alert == ModerateRiskAlert <==>
      (forall i :: 0 <= i < |top| ==> top[i].score <= HighThreshold)
      && exists i :: 0 <= i < |top| && top[i].score > ModerateThreshold
    ensures alert == StableNotice <==> forall i :: 0 <= i < |top| ==> top[i].score <= ModerateThreshold
  {
    match Severest(top)
    case High => HighRiskAlert
    case Moderate => ModerateRiskAlert
    case Low => StableNotice
  }

  /** The display loop over the top five: labels each entry and raises the
      `high_risk_detected` / `moderate_risk_detected` flags, which start false
      and are only ever set; the banner is then picked from the flags. */
  method ScanTop(top: seq<Prediction>) returns (levels: seq<Level>, alert: Alert)
    ensures |levels| == |top|
    ensures forall i :: 0 <= i < |top| ==> levels[i] == Classify(top[i].score)
    ensures alert == AlertFor(top)
  {
    var highRiskDetected := false;
    var moderateRiskDetected := false;
    levels := [];
    for i := 0 to |top|
      invariant |levels| == i
      invariant forall j :: 0 <= j < i ==> levels[j] == Classify(top[j].score)
      invariant highRiskDetected <==> exists j :: 0 <= j < i && top[j].score > HighThreshold
      invariant moderateRiskDetected <==>
        exists j :: 0 <= j < i && ModerateThreshold < top[j].score <= HighThreshold
    {
      var score := top[i].score;
      var risk;
      if score > HighThreshold {
        risk := High;
        highRiskDetected := true;
      } else if score > ModerateThreshold {
        risk := Moderate;
        moderateRiskDetected := true;
      } else {
        risk := Low;
      }
      levels := levels + [risk];
    }
    if highRiskDetected {
      alert := HighRiskAlert;
    } else if moderateRiskDetected {
      alert := ModerateRiskAlert;
    } else {
      alert := StableNotice;
    }
  }
}
