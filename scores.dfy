/**
  * The status vocabulary of the compatibility list: the weight of each
  * reported status (`STATUS_SCORES`, `getScoreForStatus`) and the consensus
  * label derived from a group's mean weight (`statusFromAverage`).
  */
module Scores {
  import opened Text

  /** `STATUS_SCORES`: lower-cased status to weight. */
  const StatusScores: map<string, real> := map[
    "perfect" := 5.0,
    "playable" := 4.0,
    "in-game" := 3.0,
    "ingame" := 3.0,
    "menu" := 2.0,
    "not tested" := 1.0,
    "not-tested" := 1.0,
    "not_tested" := 1.0,
    "boot" := 1.5,
    "crash" := 0.0,
    "broken" := 0.0,
    "unknown" := 1.0
  ]

  /** The weight the table gives a lower-cased key, "unknown"'s weight when absent (`?? STATUS_SCORES.unknown`). */
  function Lookup(key: string): real {
    if key in StatusScores then StatusScores[key] else StatusScores["unknown"]
  }

  /** `getScoreForStatus`: an empty status weighs as "unknown"; otherwise the trimmed,
      lower-cased status is looked up. */
  function ScoreForStatus(status: string): (r: real)
  {
    if status == "" then StatusScores["unknown"] else Lookup(Lower(Trim(status)))
  }

  /** The statuses the table knows, as a closed enumeration with a fallback case. */
  datatype StatusKind = Perfect | Playable | InGame | Menu | NotTested | Boot | Crash | Unrecognised

  /** Independent reading of a lower-cased key, spelling by spelling. */
  function Classify(key: string): StatusKind {
    if key == "perfect" then Perfect
    else if key == "playable" then Playable
    else if key == "in-game" || key == "ingame" then InGame
    else if key == "menu" then Menu
    else if key == "not tested" || key == "not-tested" || key == "not_tested" then NotTested
    else if key == "boot" then Boot
    else if key == "crash" || key == "broken" then Crash
    else Unrecognised
  }

  function Weight(k: StatusKind): real {
    match k
    case Perfect => 5.0
    case Playable => 4.0
    case InGame => 3.0
    case Menu => 2.0
    case NotTested => 1.0
    case Boot => 1.5
    case Crash => 0.0
    case Unrecognised => 1.0
  }

  /** The table and the enumeration agree on every key. */
  lemma LookupIsWeightOfKind(key: string)
    ensures Lookup(key) == Weight(Classify(key))
  {
    if key in StatusScores {
      assert key in {"perfect", "playable", "in-game", "ingame", "menu", "not tested", "not-tested",
                     "not_tested", "boot", "crash", "broken", "unknown"};
    } else {
      assert key != "perfect" && key != "playable" && key != "in-game" && key != "ingame";
      assert key != "menu" && key != "not tested" && key != "not-tested" && key != "not_tested";
      assert key != "boot" && key != "crash" && key != "broken";
    }
  }

  /** The weight of a status is the weight of its kind: the lookup trims and lower-cases
      its key, every weight lies in [0, 5], and an empty or unrecognised status
      (including "unknown") weighs 1. */
  lemma ScoreIsWeightOfKind(status: string)
    ensures ScoreForStatus(status) == Weight(Classify(Lower(Trim(status))))
    ensures 0.0 <= ScoreForStatus(status) <= 5.0
    ensures Classify(Lower(Trim(status))) == Unrecognised ==> ScoreForStatus(status) == 1.0
  {
    ScoreIsWeight(status);
    WeightRange(Classify(Lower(Trim(status))));
  }

  lemma ScoreIsWeight(status: string)
    ensures ScoreForStatus(status) == Weight(Classify(Lower(Trim(status))))
  {
    var key := Lower(Trim(status));
    if status == "" {
      assert key == "";
      assert StatusScores["unknown"] == 1.0;
      EmptyUnrecognised();
    } else {
      LookupIsWeightOfKind(key);
    }
  }

  lemma EmptyUnrecognised()
    ensures Classify("") == Unrecognised
  {
  }

  lemma WeightRange(k: StatusKind)
    ensures 0.0 <= Weight(k) <= 5.0
    ensures k == Unrecognised ==> Weight(k) == 1.0
  {
  }

  /** Case and surrounding white space do not matter to the weight. */
  lemma ScoreIgnoresCaseAndSpace(status: string)
    ensures ScoreForStatus(status) == ScoreForStatus(Lower(Trim(status)))
  {
    var t := Trim(status);
    TrimSpec(status);
    LowerKeepsTrimmed(t);
    TrimOfTrimmed(Lower(t));
    LowerIdempotent(t);
    assert Lower(Trim(Lower(t))) == Lower(t);
    if status != "" && Lower(t) == "" {
      ScoreIsWeightOfKind(status);
      ScoreIsWeightOfKind("");
    }
  }

  /** `statusFromAverage`: thresholds with inclusive lower bounds. */
  function StatusFromAverage(average: real): string {
    if average >= 4.5 then "Perfect"
    else if average >= 3.5 then "Playable"
    else if average >= 2.5 then "In-Game"
    else if average >= 1.5 then "Menu"
    else if average >= 0.5 then "Not Tested"
    else "Crash"
  }

  /** Position of a consensus label on the scale, worst first. */
  function LabelRank(name: string): int {
    if name == "Crash" then 0
    else if name == "Not Tested" then 1
    else if name == "Menu" then 2
    else if name == "In-Game" then 3
    else if name == "Playable" then 4
    else if name == "Perfect" then 5
    else -1
  }

  /** The lower bound of the band of a rank: 0.5, 1.5, 2.5, 3.5, 4.5 for ranks 1 to 5. */
  function BandFloor(rank: int): real {
    rank as real - 0.5
  }

  /** Each label owns the half-open band `[rank - 0.5, rank + 0.5)` (open-ended at both ends of the scale),
      so an average of exactly 2.5 reads "In-Game" and anything below 0.5 reads "Crash". */
  lemma StatusBands(average: real)
    ensures 0 <= LabelRank(StatusFromAverage(average)) <= 5
    ensures LabelRank(StatusFromAverage(average)) > 0 ==> average >= BandFloor(LabelRank(StatusFromAverage(average)))
    ensures LabelRank(StatusFromAverage(average)) < 5 ==> average < BandFloor(LabelRank(StatusFromAverage(average)) + 1)
  {
  }

  /** The consensus label never goes down when the average goes up. */
  lemma StatusMonotone(a: real, b: real)
    requires a <= b
    ensures LabelRank(StatusFromAverage(a)) <= LabelRank(StatusFromAverage(b))
  {
    StatusBands(a);
    StatusBands(b);
  }

  /** A unanimous report of a known kind yields that kind's own label, except "boot",
      whose weight 1.5 sits on the "Menu" threshold. */
  lemma UnanimousLabel(k: StatusKind)
    ensures StatusFromAverage(Weight(k)) ==
      match k
      case Perfect => "Perfect"
      case Playable => "Playable"
      case InGame => "In-Game"
      case Menu => "Menu"
      case NotTested => "Not Tested"
      case Boot => "Menu"
      case Crash => "Crash"
      case Unrecognised => "Not Tested"
  {
  }
}
