/**
  The RSICalculator around the engine: the status ladder, the per-symbol
  record, the batch over several symbols and the report message.

  The per-symbol RSI value comes from a third-party indicator library and
  the closing prices from a market-data service; both, with the rounding to
  two decimals, the clock and the rendering of numbers as text, are
  parameters of the model (MarketData, `show`).
*/
module RsiCalculator {
  import opened Wrappers
  import opened Texts

  /** Settings read once at start-up: RSI_PERIOD, RSI_OVERSOLD_THRESHOLD, RSI_OVERBOUGHT_THRESHOLD. */
  datatype Config = Config(period: int, oversold: real, overbought: real)

  /** Each unset setting falls back on its own: a period of 14, thresholds of 30 and 70. */
  function NewConfig(period: Option<int>, oversold: Option<real>, overbought: Option<real>): (c: Config)
    ensures period == None ==> c.period == 14
    ensures oversold == None ==> c.oversold == 30.0
    ensures overbought == None ==> c.overbought == 70.0
    ensures period.Some? ==> c.period == period.value
    ensures oversold.Some? ==> c.oversold == oversold.value
    ensures overbought.Some? ==> c.overbought == overbought.value
  {
    Config(
      if period.Some? then period.value else 14,
      if oversold.Some? then oversold.value else 30.0,
      if overbought.Some? then overbought.value else 70.0)
  }

  datatype Status = Oversold | Overbought | Normal {
    /** The label stored in a result: 과매도, 과매수 or 정상. */
    function Label(): string
    {
      match this
      case Oversold => "과매도"
      case Overbought => "과매수"
      case Normal => "정상"
    }
  }

  /** Oversold at or below the lower threshold, else overbought at or above the upper one, else normal. */
  function ClassifyStatus(value: real, cfg: Config): (s: Status)
    ensures s == Oversold <==> value <= cfg.oversold
    ensures s == Overbought <==> cfg.oversold < value && cfg.overbought <= value
    ensures s == Normal <==> cfg.oversold < value < cfg.overbought
  {
    if value <= cfg.oversold then Oversold
    else if value >= cfg.overbought then Overbought
    else Normal
  }

  /** With overlapping thresholds the oversold test wins and nothing is ever normal. */
  lemma OverlappingThresholdsNeverNormal(value: real, cfg: Config)
    requires cfg.overbought <= cfg.oversold
    ensures ClassifyStatus(value, cfg) != Normal
    ensures value <= cfg.oversold ==> ClassifyStatus(value, cfg) == Oversold
  {
  }

  /** A larger value never gives a less extreme upward label. */
  lemma {:induction false} ClassifyStatusMonotone(a: real, b: real, cfg: Config)
    requires a <= b
    ensures ClassifyStatus(b, cfg) == Oversold ==> ClassifyStatus(a, cfg) == Oversold
    ensures ClassifyStatus(a, cfg) == Overbought ==> ClassifyStatus(b, cfg) == Overbought
  {
  }

  /** One symbol's result: value and price already rounded for display. */
  datatype RsiRecord = RsiRecord(symbol: string, rsiValue: real, currentPrice: real, status: Status, timestamp: string)

  /** What the record assembly needs from outside the model. */
  datatype MarketData = MarketData(
    closes: string -> Option<seq<real>>,     // the Close column of the price history, oldest first, or nothing
    indicator: (seq<real>, int) -> Option<real>,  // the library RSI of a close series for a window
    round2: real -> real,                    // rounding to two decimals
    clock: nat -> string)                    // the formatted time at the n-th per-symbol call

  /**
    get_rsi_for_symbol: nothing without price data or without an indicator
    value; otherwise a record whose status is decided on the unrounded
    value while the stored value and price are rounded.
  */
  function RsiForSymbol(symbol: string, call: nat, cfg: Config, md: MarketData): (r: Option<RsiRecord>)
    ensures r.Some? <==>
      && md.closes(symbol).Some? && |md.closes(symbol).value| > 0
      && md.indicator(md.closes(symbol).value, cfg.period).Some?
    ensures r.Some? ==>
      var closes := md.closes(symbol).value;
      var value := md.indicator(closes, cfg.period).value;
      && r.value.symbol == symbol
      && r.value.status == ClassifyStatus(value, cfg)
      && r.value.rsiValue == md.round2(value)
      && r.value.currentPrice == md.round2(closes[|closes| - 1])
      && r.value.timestamp == md.clock(call)
  {
    match md.closes(symbol)
    case None => None
    case Some(closes) =>
      if |closes| == 0 then None
      else
        match md.indicator(closes, cfg.period)
        case None => None
        case Some(value) =>
          Some(RsiRecord(symbol, md.round2(value), md.round2(closes[|closes| - 1]),
                         ClassifyStatus(value, cfg), md.clock(call)))
  }

  /**
    The status is taken before rounding: an indicator value of 30.004 that
    rounds to 30.0 is shown as 30.0 yet labelled normal under the default
    thresholds, although 30.0 itself would be oversold.
  */
  lemma StatusUsesUnroundedValue(symbol: string, md: MarketData)
    requires md.closes(symbol) == Some([100.0])
    requires md.indicator([100.0], 14) == Some(30.004)
    requires md.round2(30.004) == 30.0
    ensures RsiForSymbol(symbol, 0, Config(14, 30.0, 70.0), md).Some?
    ensures RsiForSymbol(symbol, 0, Config(14, 30.0, 70.0), md).value.rsiValue == 30.0
    ensures RsiForSymbol(symbol, 0, Config(14, 30.0, 70.0), md).value.status == Normal
    ensures ClassifyStatus(30.0, Config(14, 30.0, 70.0)) == Oversold
  {
  }

  /** The results of a batch: every symbol's record that exists, in input order. */
  function Collected(symbols: seq<string>, cfg: Config, md: MarketData): (rs: seq<RsiRecord>)
    ensures |rs| <= |symbols|
  {
    if symbols == [] then []
    else
      var n := |symbols| - 1;
      var earlier := Collected(symbols[..n], cfg, md);
      match RsiForSymbol(symbols[n], n, cfg, md)
      case None => earlier
      case Some(r) => earlier + [r]
  }

  /**
    The batch is exactly the successful symbols, in order: the records stand
    at strictly increasing positions of the input, each is that symbol's own
    record, and no successful symbol is skipped.
  */
  lemma {:induction false} CollectedIsOrderedSelection(symbols: seq<string>, cfg: Config, md: MarketData)
    returns (idx: seq<nat>)
    ensures |idx| == |Collected(symbols, cfg, md)|
    ensures forall k :: 0 <= k < |idx| ==>
      idx[k] < |symbols| && RsiForSymbol(symbols[idx[k]], idx[k], cfg, md) == Some(Collected(symbols, cfg, md)[k])
    ensures forall k, l :: 0 <= k < l < |idx| ==> idx[k] < idx[l]
    ensures forall i :: 0 <= i < |symbols| && RsiForSymbol(symbols[i], i, cfg, md).Some? ==> i in idx
  {
    if symbols == [] {
      return [];
    }
    var n := |symbols| - 1;
    var pre := symbols[..n];
    var earlier := CollectedIsOrderedSelection(pre, cfg, md);
    assert forall i :: 0 <= i < n ==> pre[i] == symbols[i];
    match RsiForSymbol(symbols[n], n, cfg, md)
    case None =>
      idx := earlier;
    case Some(r) =>
      idx := earlier + [n];
  }

  /**
    get_rsi_for_symbols: ask for each symbol in turn and keep the records
    that come back.
  */
  method RsiForSymbols(symbols: seq<string>, cfg: Config, md: MarketData) returns (results: seq<RsiRecord>)
    ensures results == Collected(symbols, cfg, md)
    ensures |results| <= |symbols|
  {
    results := [];
    for i := 0 to |symbols|
      invariant results == Collected(symbols[..i], cfg, md)
    {
      assert symbols[..i + 1][..i] == symbols[..i];
      var result := RsiForSymbol(symbols[i], i, cfg, md);
      if result.Some? {
        results := results + [result.value];
      }
    }
    assert symbols[..|symbols|] == symbols;
  }

  const NoRsiData: string := "RSI 데이터를 가져올 수 없습니다."
  const ReportHeader: string := "📊 <b>미국 주요 지수 RSI 현황</b>\n\n"

  /** 🔴 for oversold, 🟢 for overbought, 🔵 for normal. */
  function StatusEmoji(s: Status): (e: string)
    ensures e == "🔴" <==> s == Oversold
    ensures e == "🟢" <==> s == Overbought
    ensures e == "🔵" <==> s == Normal
  {
    match s
    case Oversold => "🔴"
    case Overbought => "🟢"
    case Normal => "🔵"
  }

  /** The four lines of one record, followed by a blank line. */
  function Block(r: RsiRecord, show: real -> string): (b: string)
    ensures |StatusEmoji(r.status)| + 2 <= |b|
    ensures b[..|StatusEmoji(r.status)|] == StatusEmoji(r.status)
    ensures b[|b| - 2..] == "\n\n"
  {
    (StatusEmoji(r.status) + " <b>" + r.symbol + "</b>\n")
    + ("   RSI: " + show(r.rsiValue) + "\n")
    + ("   현재가: $" + show(r.currentPrice) + "\n")
    + ("   상태: " + r.status.Label() + "\n\n")
  }

  function BlockWith(show: real -> string): RsiRecord -> string
  {
    r => Block(r, show)
  }

  function Blocks(rs: seq<RsiRecord>, show: real -> string): string
  {
    ConcatMap(rs, BlockWith(show))
  }

  /** Update time of the first record and the two thresholds. */
  function Footer(timestamp: string, cfg: Config, show: real -> string): string
  {
    ("⏰ 업데이트: " + timestamp + "\n")
    + ("📈 RSI 기준: 과매도≤" + show(cfg.oversold) + ", 과매수≥" + show(cfg.overbought))
  }

  /** The report for a list of records. */
  function RsiReport(records: seq<RsiRecord>, cfg: Config, show: real -> string): (r: string)
    ensures records != [] ==> |ReportHeader| <= |r| && r[..|ReportHeader|] == ReportHeader
  {
    if records == [] then NoRsiData
    else ReportHeader + Blocks(records, show) + Footer(records[0].timestamp, cfg, show)
  }

  /**
    A non-empty report is the header, every record's block in list order and
    the footer stamped with the first record's time; the k-th block sits
    between the blocks of the records before and after it.
  */
  lemma ReportLayout(records: seq<RsiRecord>, cfg: Config, show: real -> string, k: nat)
    requires k < |records|
    ensures RsiReport(records, cfg, show)
         == ReportHeader + Blocks(records[..k], show) + Block(records[k], show)
            + Blocks(records[k + 1..], show) + Footer(records[0].timestamp, cfg, show)
  {
    ConcatMapAt(records, k, BlockWith(show));
    assert BlockWith(show)(records[k]) == Block(records[k], show);
    var before, block := Blocks(records[..k], show), Block(records[k], show);
    AppendAssoc(ReportHeader, before + block, Blocks(records[k + 1..], show));
    AppendAssoc(ReportHeader, before, block);
  }

  /** The fixed no-data text is the report of exactly the empty list. */
  lemma ReportIsNoDataIffEmpty(records: seq<RsiRecord>, cfg: Config, show: real -> string)
    ensures RsiReport(records, cfg, show) == NoRsiData <==> records == []
  {
    if records != [] {
      var rest := Blocks(records, show) + Footer(records[0].timestamp, cfg, show);
      AppendAssoc(ReportHeader, Blocks(records, show), Footer(records[0].timestamp, cfg, show));
      assert RsiReport(records, cfg, show) == ReportHeader + rest;
      assert (ReportHeader + rest)[0] == ReportHeader[0];
      assert ReportHeader[0] != NoRsiData[0];
    }
  }

  /** format_rsi_message: the fixed text for no data, else header, one block per record, footer. */
  method FormatRsiMessage(records: seq<RsiRecord>, cfg: Config, show: real -> string) returns (message: string)
    ensures message == RsiReport(records, cfg, show)
  {
    if |records| == 0 {
      return NoRsiData;
    }
    message := ReportHeader;
    for k := 0 to |records|
      invariant message == ReportHeader + Blocks(records[..k], show)
    {
      ConcatMapSnoc(records, k, BlockWith(show));
      ghost var before := message;
      var data := records[k];
      var statusEmoji := StatusEmoji(data.status);
      var title := statusEmoji + " <b>" + data.symbol + "</b>\n";
      var value := "   RSI: " + show(data.rsiValue) + "\n";
      var price := "   현재가: $" + show(data.currentPrice) + "\n";
      var statusLine := "   상태: " + data.status.Label() + "\n\n";
      message := message + title;
      message := message + value;
      message := message + price;
      message := message + statusLine;
      AppendAssoc(before, title + value + price, statusLine);
      AppendAssoc(before, title + value, price);
      AppendAssoc(before, title, value);
      assert BlockWith(show)(data) == Block(data, show) == title + value + price + statusLine;
      AppendAssoc(ReportHeader, Blocks(records[..k], show), Block(data, show));
    }
    assert records[..|records|] == records;
    ghost var body := message;
    var updated := "⏰ 업데이트: " + records[0].timestamp + "\n";
    var thresholds := "📈 RSI 기준: 과매도≤" + show(cfg.oversold) + ", 과매수≥" + show(cfg.overbought);
    message := message + updated;
    message := message + thresholds;
    AppendAssoc(body, updated, thresholds);
  }
}
