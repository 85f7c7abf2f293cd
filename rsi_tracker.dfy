/**
  One run of the tracker (main.py's `main`): compute the batch for the
  tracked symbols, then send exactly one message — an error when nothing
  could be computed, an alert followed by the report when some symbol is
  oversold or overbought, the plain report otherwise.  The messaging
  service is not modelled; the messages a run sends are its result.
*/
module RsiTracker {
  import opened Wrappers
  import opened Texts
  import opened RsiCalculator

  const TrackedSymbols: seq<string> := ["SPY", "QQQ", "DIA"]
  const ErrorMessage: string := "❌ 오류: " + NoRsiData
  const AlertHeader: string := "🚨 <b>RSI 알림</b>\n\n"

  /** A record needs an alert when its status is 과매도 or 과매수. */
  predicate IsAlert(r: RsiRecord)
  {
    r.status == Oversold || r.status == Overbought
  }

  /** The records that need an alert, in their original order. */
  function Alerts(rs: seq<RsiRecord>): (alerts: seq<RsiRecord>)
    ensures |alerts| <= |rs|
    ensures forall k :: 0 <= k < |alerts| ==> IsAlert(alerts[k])
  {
    if rs == [] then []
    else
      var earlier := Alerts(rs[..|rs| - 1]);
      if IsAlert(rs[|rs| - 1]) then earlier + [rs[|rs| - 1]] else earlier
  }

  /**
    The alerts are exactly the subsequence of alerting records: they stand
    at strictly increasing positions of the input and every alerting
    record is among them.
  */
  lemma {:induction false} AlertsIsOrderedSelection(rs: seq<RsiRecord>) returns (idx: seq<nat>)
    ensures |idx| == |Alerts(rs)|
    ensures forall k :: 0 <= k < |idx| ==> idx[k] < |rs| && Alerts(rs)[k] == rs[idx[k]]
    ensures forall k, l :: 0 <= k < l < |idx| ==> idx[k] < idx[l]
    ensures forall i :: 0 <= i < |rs| && IsAlert(rs[i]) ==> i in idx
  {
    if rs == [] {
      return [];
    }
    var n := |rs| - 1;
    var earlier := AlertsIsOrderedSelection(rs[..n]);
    if IsAlert(rs[n]) {
      idx := earlier + [n];
    } else {
      idx := earlier;
    }
  }

  /** No alert exactly when every record is normal. */
  lemma {:induction false} NoAlertsIffAllNormal(rs: seq<RsiRecord>)
    ensures Alerts(rs) == [] <==> forall i :: 0 <= i < |rs| ==> rs[i].status == Normal
  {
    if rs != [] {
      var n := |rs| - 1;
      NoAlertsIffAllNormal(rs[..n]);
      assert forall i :: 0 <= i < n ==> rs[..n][i] == rs[i];
    }
  }

  /** The loop that collects `alert_symbols`. */
  method AlertSymbols(results: seq<RsiRecord>) returns (alerts: seq<RsiRecord>)
    ensures alerts == Alerts(results)
  {
    alerts := [];
    for i := 0 to |results|
      invariant alerts == Alerts(results[..i])
    {
      assert results[..i + 1][..i] == results[..i];
      var result := results[i];
      if result.status == Oversold || result.status == Overbought {
        alerts := alerts + [result];
      }
    }
    assert results[..|results|] == results;
  }

  /** 🔴 for an oversold alert, 🟢 for any other. */
  function AlertEmoji(s: Status): (e: string)
    ensures e == "🔴" <==> s == Oversold
    ensures e == "🟢" <==> s != Oversold
  {
    if s == Oversold then "🔴" else "🟢"
  }

  function AlertLine(r: RsiRecord, show: real -> string): string
  {
    AlertEmoji(r.status) + " " + r.symbol + ": RSI " + show(r.rsiValue) + " (" + r.status.Label() + ")\n"
  }

  function AlertLineWith(show: real -> string): RsiRecord -> string
  {
    r => AlertLine(r, show)
  }

  /** The alert message: header, one line per alert, a blank line, then the full report. */
  function AlertText(alerts: seq<RsiRecord>, report: string, show: real -> string): (m: string)
    ensures |AlertHeader| + 1 + |report| <= |m|
    ensures m[..|AlertHeader|] == AlertHeader
    ensures m[|m| - |report|..] == report
    ensures m[|m| - |report| - 1] == '\n'
  {
    AlertHeader + ConcatMap(alerts, AlertLineWith(show)) + ("\n" + report)
  }

  /** The loop that builds `alert_message`. */
  method AlertMessage(alerts: seq<RsiRecord>, report: string, show: real -> string) returns (message: string)
    ensures message == AlertText(alerts, report, show)
  {
    message := AlertHeader;
    for k := 0 to |alerts|
      invariant message == AlertHeader + ConcatMap(alerts[..k], AlertLineWith(show))
    {
      ConcatMapSnoc(alerts, k, AlertLineWith(show));
      var symbolData := alerts[k];
      var statusEmoji := AlertEmoji(symbolData.status);
      message := message + (statusEmoji + " " + symbolData.symbol + ": RSI " + show(symbolData.rsiValue)
                            + " (" + symbolData.status.Label() + ")\n");
      assert AlertLineWith(show)(symbolData) == AlertLine(symbolData, show);
      AppendAssoc(AlertHeader, ConcatMap(alerts[..k], AlertLineWith(show)), AlertLine(symbolData, show));
    }
    assert alerts[..|alerts|] == alerts;
    message := message + ("\n" + report);
  }

  /** The one message a run sends, given the batch it computed. */
  function Dispatch(results: seq<RsiRecord>, cfg: Config, show: real -> string): string
  {
    if results == [] then ErrorMessage
    else
      var report := RsiReport(results, cfg, show);
      var alerts := Alerts(results);
      if alerts != [] then AlertText(alerts, report, show) else report
  }

  /** With no result the run sends only the error text, which is never a report. */
  lemma EmptyBatchSendsError(results: seq<RsiRecord>, cfg: Config, show: real -> string)
    ensures results == [] ==> Dispatch(results, cfg, show) == ErrorMessage
    ensures results != [] ==> Dispatch(results, cfg, show) != ErrorMessage
  {
    if results != [] {
      var report := RsiReport(results, cfg, show);
      var rest := Blocks(results, show) + Footer(results[0].timestamp, cfg, show);
      AppendAssoc(ReportHeader, Blocks(results, show), Footer(results[0].timestamp, cfg, show));
      assert report == ReportHeader + rest;
      assert report[0] == ReportHeader[0];
      var alerts := Alerts(results);
      if alerts != [] {
        var lines := ConcatMap(alerts, AlertLineWith(show));
        AppendAssoc(AlertHeader, lines, "\n" + report);
        assert Dispatch(results, cfg, show)[0] == AlertHeader[0];
      }
      assert Dispatch(results, cfg, show)[0] != ErrorMessage[0];
    }
  }

  /** A successful run always carries the full report, at the end of its message. */
  lemma ReportEndsMessage(results: seq<RsiRecord>, cfg: Config, show: real -> string)
    requires results != []
    ensures var report := RsiReport(results, cfg, show);
      var m := Dispatch(results, cfg, show);
      |report| <= |m| && m[|m| - |report|..] == report
  {
    var report := RsiReport(results, cfg, show);
    var m := Dispatch(results, cfg, show);
    if Alerts(results) != [] {
      var prefix := AlertHeader + ConcatMap(Alerts(results), AlertLineWith(show)) + "\n";
      AppendAssoc(AlertHeader + ConcatMap(Alerts(results), AlertLineWith(show)), "\n", report);
      assert m == prefix + report;
    }
  }

  /** With alerts the message opens with the alert header; without, it is the report unchanged. */
  lemma DispatchShape(results: seq<RsiRecord>, cfg: Config, show: real -> string)
    requires results != []
    ensures Alerts(results) == [] ==> Dispatch(results, cfg, show) == RsiReport(results, cfg, show)
    ensures Alerts(results) != [] ==>
      Dispatch(results, cfg, show)[..|AlertHeader|] == AlertHeader
  {
    if Alerts(results) != [] {
      var rest := ConcatMap(Alerts(results), AlertLineWith(show)) + ("\n" + RsiReport(results, cfg, show));
      AppendAssoc(AlertHeader, ConcatMap(Alerts(results), AlertLineWith(show)), "\n" + RsiReport(results, cfg, show));
      assert Dispatch(results, cfg, show) == AlertHeader + rest;
    }
  }

  /**
    main: the batch for the tracked symbols, then exactly one message.  The
    returned sequence is what the run hands to the messaging service.
  */
  method Run(cfg: Config, md: MarketData, show: real -> string) returns (sent: seq<string>)
    ensures sent == [Dispatch(Collected(TrackedSymbols, cfg, md), cfg, show)]
  {
    var rsiResults := RsiForSymbols(TrackedSymbols, cfg, md);
    if |rsiResults| == 0 {
      return [ErrorMessage];
    }
    var alertSymbols := AlertSymbols(rsiResults);
    var message := FormatRsiMessage(rsiResults, cfg, show);
    if |alertSymbols| > 0 {
      var alertMessage := AlertMessage(alertSymbols, message, show);
      sent := [alertMessage];
    } else {
      sent := [message];
    }
  }
}
