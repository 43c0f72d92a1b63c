/**
 * `build_feishu_card` as the source runs it: a loop that appends each
 * alert's blocks to a growing list, a conditional `pop` of the trailing
 * separator, and the envelope around the result.  Each method is proved
 * to compute the matching function of module FeishuCard.
 */
module CardBuilder {
  import opened Wrappers
  import opened TextFormat
  import opened Alertmanager
  import opened FeishuCard
  import opened Sequences

  /** The detail lines, built by two conditional appends after the three fixed lines. */
  method BuildFields(a: Alert, startTime: string) returns (fields: seq<string>)
    ensures fields == DetailLines(a, startTime)
  {
    fields := [
      "**实例**：" + Lookup(a.labels, "instance", "N/A"),
      "**级别**：" + Lookup(a.labels, "severity", "info"),
      "**触发时间**：" + startTime
    ];
    if HasText(a.annotations, "summary") {
      fields := fields + ["**概要**：" + a.annotations["summary"]];
    }
    if HasText(a.annotations, "description") {
      fields := fields + ["**详情**：" + a.annotations["description"]];
    }
  }

  /** The element list: every alert's blocks in batch order, without a trailing separator. */
  method BuildElements(convert: Converter, alerts: seq<Alert>) returns (elements: seq<Element>)
    ensures elements == CardElements(convert, alerts)
  {
    elements := [];
    for i := 0 to |alerts|
      invariant elements == Concat(Rendered(convert, alerts)[..i])
    {
      var alert := alerts[i];
      ghost var before := elements;
      var startsAt := alert.startsAt.GetOr("");
      var startTime := startsAt;
      var converted := convert(startsAt);
      if converted.Some? {
        startTime := converted.value;
      }
      assert startTime == TriggerTime(convert, alert);
      var statusEmoji := if alert.status == Resolved then "已恢复" else "告警中";
      var title := Div(LarkMd("**" + statusEmoji + " " + Lookup(alert.labels, "alertname", "未知告警") + "**"));
      assert title == TitleBlock(alert);
      elements := elements + [title];
      var fields := BuildFields(alert, startTime);
      var details := Div(LarkMd(JoinLines(fields)));
      assert details == DetailBlock(convert, alert);
      elements := elements + [details];
      var generatorUrl := alert.generatorURL.GetOr("");
      if generatorUrl != "" {
        elements := elements + [Action([Button(PlainText("查看图表"), "primary", generatorUrl)])];
      }
      assert elements == before + [title, details] + ActionBlocks(alert);
      elements := elements + [Hr];
      AppendAlertBlocks(convert, alerts, i, before, title, details, elements);
    }
    assert Rendered(convert, alerts)[..|alerts|] == Rendered(convert, alerts);
    if |elements| > 0 && elements[|elements| - 1].Tag() == "hr" {
      elements := elements[..|elements| - 1];
    }
  }

  /** The blocks one iteration appended are the alert's blocks, so the invariant holds after it. */
  lemma AppendAlertBlocks(convert: Converter, alerts: seq<Alert>, i: nat, before: seq<Element>,
                          title: Element, details: Element, elements: seq<Element>)
    requires i < |alerts| && before == Concat(Rendered(convert, alerts)[..i])
    requires title == TitleBlock(alerts[i]) && details == DetailBlock(convert, alerts[i])
    requires elements == before + [title, details] + ActionBlocks(alerts[i]) + [Hr]
    ensures elements == Concat(Rendered(convert, alerts)[..i + 1])
  {
    var parts := Rendered(convert, alerts);
    calc {
      elements;
      before + AlertBlocks(convert, alerts[i]);
      { assert parts[i] == AlertBlocks(convert, alerts[i]); }
      Concat(parts[..i]) + parts[i];
      { ConcatStep(parts, i); }
      Concat(parts[..i + 1]);
    }
  }

  /** The whole card message for a batch. */
  method BuildFeishuCard(convert: Converter, alerts: seq<Alert>) returns (msg: Message)
    ensures msg == CardMessage(convert, alerts)
  {
    var firingCount := FiringCount(alerts);
    var resolvedCount := ResolvedCount(alerts);
    var headerColor, headerTitle;
    if resolvedCount > 0 && firingCount == 0 {
      headerColor, headerTitle := Green, "告警已恢复";
    } else if firingCount > 0 {
      headerColor, headerTitle := Red, "告警触发 (" + NatToString(firingCount) + "个)";
    } else {
      headerColor, headerTitle := Grey, "告警通知";
    }
    var elements := BuildElements(convert, alerts);
    msg := Message("interactive",
      Card(Config(true), Header(PlainText(headerTitle), headerColor.Template()), elements));
  }
}
