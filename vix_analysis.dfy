/**
  VIXAnalyzer: the five-bucket classification of the volatility index's
  close, the latest-snapshot record and its message section.  The price
  history comes from a market-data service and is a parameter here.
*/
module VixAnalysis {
  import opened Wrappers

  const VixSymbol: string := "^VIX"

  /** The five buckets, from calmest to most severe. */
  datatype VixLevel = VeryStable | Stable | Watch | Uneasy | Crisis {
    /** The label the source stores: 매우 안정, 안정, 경계, 불안, 위기. */
    function Label(): string
    {
      match this
      case VeryStable => "매우 안정"
      case Stable => "안정"
      case Watch => "경계"
      case Uneasy => "불안"
      case Crisis => "위기"
    }

    /** Position in the severity order, 0 for the calmest. */
    function Severity(): nat
    {
      match this
      case VeryStable => 0
      case Stable => 1
      case Watch => 2
      case Uneasy => 3
      case Crisis => 4
    }
  }

  /** Lower-bound-inclusive buckets at 15, 20, 30 and 40; anything below 15, negatives too, is very stable. */
  function ClassifyVix(close: real): (level: VixLevel)
    ensures level == VeryStable <==> close < 15.0
    ensures level == Stable <==> 15.0 <= close < 20.0
    ensures level == Watch <==> 20.0 <= close < 30.0
    ensures level == Uneasy <==> 30.0 <= close < 40.0
    ensures level == Crisis <==> 40.0 <= close
  {
    if close < 15.0 then VeryStable
    else if close < 20.0 then Stable
    else if close < 30.0 then Watch
    else if close < 40.0 then Uneasy
    else Crisis
  }

  /** A higher close is never a calmer bucket. */
  lemma ClassifyVixMonotone(a: real, b: real)
    requires a <= b
    ensures ClassifyVix(a).Severity() <= ClassifyVix(b).Severity()
  {
  }

  /**
    The smallest close of each level.  Every level above the calmest holds
    exactly the closes from its lower bound up to the next level's; the
    calmest also holds every negative close.
  */
  function LowerBound(level: VixLevel): real
  {
    match level
    case VeryStable => 0.0
    case Stable => 15.0
    case Watch => 20.0
    case Uneasy => 30.0
    case Crisis => 40.0
  }

  /** Every level's lower bound is classified as that level; just below the bound of a non-calmest level lies the next calmer one. */
  lemma ClassifyAtLowerBound(level: VixLevel)
    ensures ClassifyVix(LowerBound(level)) == level
    ensures level != VeryStable ==> ClassifyVix(LowerBound(level) - 0.001).Severity() == level.Severity() - 1
  {
  }

  /** The latest snapshot: symbol, rounded close, its level and the time. */
  datatype VixResult = VixResult(symbol: string, close: real, status: VixLevel, timestamp: string)

  /**
    get_latest_vix: nothing without data; otherwise the last close is
    rounded first and the rounded value is what gets classified and stored.
  */
  function LatestVix(closes: Option<seq<real>>, round2: real -> real, now: string): (r: Option<VixResult>)
    ensures r.Some? <==> closes.Some? && |closes.value| > 0
    ensures r.Some? ==>
      && r.value.symbol == VixSymbol
      && r.value.close == round2(closes.value[|closes.value| - 1])
      && r.value.status == ClassifyVix(r.value.close)
      && r.value.timestamp == now
  {
    match closes
    case None => None
    case Some(cs) =>
      if |cs| == 0 then None
      else
        var closeValue := round2(cs[|cs| - 1]);
        Some(VixResult(VixSymbol, closeValue, ClassifyVix(closeValue), now))
  }

  /** The dictionary lookup of a status text, defaulting a missing status to 경계 and an unknown one to 🟡. */
  function VixEmoji(status: Option<string>): (e: string)
    ensures status == None ==> e == "🟡"
    ensures status.Some? && status.value !in {"매우 안정", "안정", "경계", "불안", "위기"} ==> e == "🟡"
  {
    var key := if status.Some? then status.value else "경계";
    if key == "매우 안정" || key == "안정" then "🟢"
    else if key == "경계" then "🟡"
    else if key == "불안" then "🟠"
    else if key == "위기" then "🔴"
    else "🟡"
  }

  /** The colour by severity: green for the two calmest buckets, then yellow, orange and red. */
  function SeverityColour(level: VixLevel): string
  {
    if level.Severity() <= 1 then "🟢"
    else if level.Severity() == 2 then "🟡"
    else if level.Severity() == 3 then "🟠"
    else "🔴"
  }

  /** Looking up a level's own label gives its severity colour. */
  lemma EmojiMatchesSeverity(level: VixLevel)
    ensures VixEmoji(Some(level.Label())) == SeverityColour(level)
  {
  }

  const VixTitle: string := "🌪 <b>VIX 변동성 지표</b>\n"
  const VixUnavailable: string := "🌪 <b>VIX 변동성 지표</b>\n   데이터를 가져올 수 없습니다.\n\n"

  /**
    format_vix_section: the fixed unavailable section without a snapshot;
    otherwise the title, the rendered close and the status with its colour.
  */
  function FormatVixSection(info: Option<VixResult>, show: real -> string): (section: string)
    ensures info == None ==> section == VixUnavailable
    ensures info.Some? ==>
      section == VixTitle + ("   VIX 종가: " + show(info.value.close) + "\n")
                 + ("   상태: " + SeverityColour(info.value.status) + " " + info.value.status.Label() + "\n\n")
  {
    match info
    case None => VixUnavailable
    case Some(v) =>
      EmojiMatchesSeverity(v.status);
      var statusEmoji := VixEmoji(Some(v.status.Label()));
      VixTitle + ("   VIX 종가: " + show(v.close) + "\n")
      + ("   상태: " + statusEmoji + " " + v.status.Label() + "\n\n")
  }

  /** Both sections open with the same title line. */
  lemma SectionsShareTitle(info: Option<VixResult>, show: real -> string)
    ensures FormatVixSection(info, show)[..|VixTitle|] == VixTitle
  {
    if info.Some? {
      var v := info.value;
      var rest := ("   VIX 종가: " + show(v.close) + "\n") + ("   상태: " + SeverityColour(v.status) + " " + v.status.Label() + "\n\n");
      assert FormatVixSection(info, show) == VixTitle + rest;
    } else {
      assert VixUnavailable == VixTitle + "   데이터를 가져올 수 없습니다.\n\n";
    }
  }
}
