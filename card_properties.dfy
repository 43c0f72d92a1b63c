/**
 * What `build_feishu_card` promises, proved about the rendering
 * functions of module FeishuCard (and so, through the ensures clauses of
 * module CardBuilder, about the loop that builds the card).
 */
module CardProperties {
  import opened Wrappers
  import opened TextFormat
  import opened Alertmanager
  import opened FeishuCard
  import opened Sequences

  // ---------------------------------------------------------------- header

  /**
   * Header rules stated over the batch itself: green exactly when something
   * resolved and nothing fires, red exactly when something fires (its title
   * shows the firing count in decimal), grey otherwise, which covers the
   * empty batch and a batch whose statuses are all something else.
   */
  lemma HeaderRules(alerts: seq<Alert>)
    ensures BatchBanner(alerts).color == Green <==>
      (exists i :: 0 <= i < |alerts| && alerts[i].status == Resolved) &&
      (forall i :: 0 <= i < |alerts| ==> alerts[i].status != Firing)
    ensures BatchBanner(alerts).color == Red <==>
      exists i :: 0 <= i < |alerts| && alerts[i].status == Firing
    ensures BatchBanner(alerts).color == Grey <==>
      forall i :: 0 <= i < |alerts| ==> alerts[i].status != Firing && alerts[i].status != Resolved
    ensures BatchBanner(alerts).color == Green ==> BatchBanner(alerts).title == "告警已恢复"
    ensures BatchBanner(alerts).color == Red ==>
      BatchBanner(alerts).title == "告警触发 (" + NatToString(FiringCount(alerts)) + "个)"
    ensures BatchBanner(alerts).color == Grey ==> BatchBanner(alerts).title == "告警通知"
  {
    CountPositiveIff(alerts, Firing);
    CountPositiveIff(alerts, Resolved);
  }

  /** The number in a red title reads back as the firing count. */
  lemma RedTitleShowsCount(alerts: seq<Alert>)
    requires BatchBanner(alerts).color == Red
    ensures var t := BatchBanner(alerts).title;
      |t| > 8 && AllDigits(t[6..|t| - 2]) && ParseNat(t[6..|t| - 2]) == FiringCount(alerts)
  {
    var digits := NatToString(FiringCount(alerts));
    var t := BatchBanner(alerts).title;
    assert t == "告警触发 (" + digits + "个)";
    assert t[6..|t| - 2] == digits;
    ParseNatToString(FiringCount(alerts));
  }

  /** The header title is never empty and its template is one of the three colour names. */
  lemma HeaderWellFormed(alerts: seq<Alert>)
    ensures BatchBanner(alerts).title != ""
    ensures BatchBanner(alerts).color.Template() in {"green", "red", "grey"}
  {
  }

  // ------------------------------------------------------------ one alert

  /**
   * The title block: bold "<label> <alertname>", the label "已恢复" exactly
   * for status "resolved", the name defaulting to "未知告警"; label and name
   * can be read back from fixed positions.
   */
  lemma TitleRules(a: Alert)
    ensures TitleBlock(a) == Div(LarkMd(TitleText(a)))
    ensures a.status == Resolved ==> TitleText(a) == "**已恢复 " + AlertName(a) + "**"
    ensures a.status != Resolved ==> TitleText(a) == "**告警中 " + AlertName(a) + "**"
    ensures "alertname" in a.labels ==> AlertName(a) == a.labels["alertname"]
    ensures "alertname" !in a.labels ==> AlertName(a) == "未知告警"
    ensures |TitleText(a)| == 8 + |AlertName(a)|
    ensures TitleText(a)[2..5] == "已恢复" <==> a.status == Resolved
    ensures TitleText(a)[6..|TitleText(a)| - 2] == AlertName(a)
  {
    var t := TitleText(a);
    assert t[2..5] == StatusLabel(a);
    assert t[6..|t| - 2] == AlertName(a);
  }

  /**
   * The detail lines: instance (default "N/A"), severity (default "info")
   * and trigger time come first in that order; a summary line follows only
   * when the summary has text, and a description line comes last only when
   * the description has text.
   */
  lemma DetailRules(a: Alert, startTime: string)
    ensures var ls := DetailLines(a, startTime);
      && 3 <= |ls| <= 5
      && |ls| == 3 + (if HasText(a.annotations, "summary") then 1 else 0)
                   + (if HasText(a.annotations, "description") then 1 else 0)
      && ls[0] == "**实例**：" + Instance(a)
      && ls[1] == "**级别**：" + Severity(a)
      && ls[2] == "**触发时间**：" + startTime
      && (HasText(a.annotations, "summary") ==> ls[3] == "**概要**：" + a.annotations["summary"])
      && (HasText(a.annotations, "description") ==> ls[|ls| - 1] == "**详情**：" + a.annotations["description"])
    ensures "instance" in a.labels ==> Instance(a) == a.labels["instance"]
    ensures "instance" !in a.labels ==> Instance(a) == "N/A"
    ensures "severity" in a.labels ==> Severity(a) == a.labels["severity"]
    ensures "severity" !in a.labels ==> Severity(a) == "info"
  {
  }

  lemma {:induction false} NoNewlineConcat(x: string, y: string)
    requires NoNewline(x) && NoNewline(y)
    ensures NoNewline(x + y)
  {
    forall i | 0 <= i < |x + y| ensures (x + y)[i] != '\n' {
      if i >= |x| { assert (x + y)[i] == y[i - |x|]; }
    }
  }

  /**
   * The details block is the detail lines joined by newlines: when no
   * value shown holds a newline, splitting its text gives the lines back.
   */
  lemma DetailBlockLines(convert: Converter, a: Alert)
    requires NoNewline(Instance(a)) && NoNewline(Severity(a)) && NoNewline(TriggerTime(convert, a))
    requires "summary" in a.annotations ==> NoNewline(a.annotations["summary"])
    requires "description" in a.annotations ==> NoNewline(a.annotations["description"])
    ensures DetailBlock(convert, a).Div? && DetailBlock(convert, a).text.LarkMd?
    ensures SplitLines(DetailBlock(convert, a).text.content) == DetailLines(a, TriggerTime(convert, a))
  {
    var ls := DetailLines(a, TriggerTime(convert, a));
    NoNewlineConcat("**实例**：", Instance(a));
    NoNewlineConcat("**级别**：", Severity(a));
    NoNewlineConcat("**触发时间**：", TriggerTime(convert, a));
    if "summary" in a.annotations { NoNewlineConcat("**概要**：", a.annotations["summary"]); }
    if "description" in a.annotations { NoNewlineConcat("**详情**：", a.annotations["description"]); }
    SplitJoinLines(ls);
  }

  /** The trigger time: the converted value when conversion succeeds, else the raw `startsAt` (default ""). */
  lemma TriggerTimeRules(convert: Converter, a: Alert)
    ensures convert(RawStart(a)).Some? ==> TriggerTime(convert, a) == convert(RawStart(a)).value
    ensures convert(RawStart(a)).None? ==> TriggerTime(convert, a) == RawStart(a)
    ensures a.startsAt.Some? ==> RawStart(a) == a.startsAt.value
    ensures a.startsAt.None? ==> RawStart(a) == ""
  {
  }

  /** With the conversion as written, the trigger time is always the raw `startsAt`. */
  lemma SourceTriggerTimeIsRaw(a: Alert)
    ensures TriggerTime(SourceConvert, a) == RawStart(a)
  {
  }

  /**
   * The action block exists exactly when generatorURL is a non-empty
   * string, and then holds one primary "查看图表" button linking to it.
   */
  lemma ActionRules(a: Alert)
    ensures |ActionBlocks(a)| <= 1
    ensures |ActionBlocks(a)| == 1 <==> a.generatorURL.Some? && a.generatorURL.value != ""
    ensures |ActionBlocks(a)| == 1 ==>
      && ActionBlocks(a)[0].Action?
      && |ActionBlocks(a)[0].actions| == 1
      && ActionBlocks(a)[0].actions[0] == Button(PlainText("查看图表"), "primary", a.generatorURL.value)
  {
  }

  /** 1 when the alert gets a chart button, else 0. */
  function LinkCount(a: Alert): nat { if ChartUrl(a) != "" then 1 else 0 }

  /**
   * One alert's blocks: title, details, the optional action, then the
   * separator, which is the only separator among them.
   */
  lemma AlertBlocksRules(convert: Converter, a: Alert)
    ensures var bs := AlertBlocks(convert, a);
      && |bs| == 3 + LinkCount(a)
      && bs[0] == TitleBlock(a)
      && bs[1] == DetailBlock(convert, a)
      && (LinkCount(a) == 1 ==> bs[2] == ActionBlocks(a)[0])
      && bs[|bs| - 1] == Hr
      && forall k :: 0 <= k < |bs| - 1 ==> bs[k] != Hr
  {
  }

  /** A group of blocks with its only separator at its end, after at least one other block. */
  predicate SeparatorLast(bs: seq<Element>)
  {
    |bs| >= 2 && bs[|bs| - 1] == Hr && forall k :: 0 <= k < |bs| - 1 ==> bs[k] != Hr
  }

  lemma SeparatorLastOnce(bs: seq<Element>)
    requires SeparatorLast(bs)
    ensures Occurrences(bs, Hr) == 1
  {
    OccurrencesNone(bs[..|bs| - 1], Hr);
    OccurrencesLast(bs, Hr);
  }

  /** Every alert's group of blocks has the expected size and its only separator last. */
  lemma RenderedShapes(convert: Converter, alerts: seq<Alert>)
    ensures forall i :: 0 <= i < |alerts| ==>
      |Rendered(convert, alerts)[i]| == BlockSizes(alerts)[i] && SeparatorLast(Rendered(convert, alerts)[i])
  {
    forall i | 0 <= i < |alerts|
      ensures |Rendered(convert, alerts)[i]| == BlockSizes(alerts)[i] && SeparatorLast(Rendered(convert, alerts)[i])
    {
      AlertBlocksRules(convert, alerts[i]);
    }
  }

  // ------------------------------------------------------------ the batch

  /** Reference sizes: 3 blocks per alert, plus 1 for an alert with a chart link. */
  function BlockSizes(alerts: seq<Alert>): seq<nat>
  {
    seq(|alerts|, i requires 0 <= i < |alerts| => 3 + LinkCount(alerts[i]))
  }

  function BlockCount(alerts: seq<Alert>): nat { Sum(BlockSizes(alerts)) }

  /** Groups that each end in their only separator concatenate to a list ending in "block, separator". */
  lemma {:induction false} ConcatEndsInSeparator(parts: seq<seq<Element>>)
    requires |parts| > 0
    requires forall i :: 0 <= i < |parts| ==> SeparatorLast(parts[i])
    ensures var all := Concat(parts); |all| >= 2 && all[|all| - 1] == Hr && all[|all| - 2] != Hr
  {
    var n := |parts|;
    ConcatStep(parts, n - 1);
    assert parts[..n] == parts;
    var last := parts[n - 1];
    assert SeparatorLast(last);
  }

  /** Dropping a trailing separator that follows some other block. */
  lemma DropSeparator(all: seq<Element>)
    requires |all| >= 2 && all[|all| - 1] == Hr && all[|all| - 2] != Hr
    ensures DropTrailingHr(all) + [Hr] == all
    ensures var es := DropTrailingHr(all); |es| == |all| - 1 && es[|es| - 1] != Hr
    ensures Occurrences(DropTrailingHr(all), Hr) + 1 == Occurrences(all, Hr)
  {
    OccurrencesLast(all, Hr);
  }

  /** Before the pop, the list has BlockCount elements, one separator per alert. */
  lemma AllBlocksCounts(convert: Converter, alerts: seq<Alert>)
    ensures |AllBlocks(convert, alerts)| == BlockCount(alerts)
    ensures Occurrences(AllBlocks(convert, alerts), Hr) == |alerts|
  {
    var parts := Rendered(convert, alerts);
    RenderedShapes(convert, alerts);
    ConcatLength(parts, BlockSizes(alerts));
    forall i | 0 <= i < |parts| ensures Occurrences(parts[i], Hr) == 1 {
      SeparatorLastOnce(parts[i]);
    }
    ConcatOccurrences(parts, Hr);
  }

  /** The blocks of the first i alerts number the sum of their sizes. */
  lemma PrefixLength(convert: Converter, alerts: seq<Alert>, i: nat)
    requires i <= |alerts|
    ensures |Concat(Rendered(convert, alerts)[..i])| == Sum(BlockSizes(alerts)[..i])
  {
    RenderedShapes(convert, alerts);
    ConcatLength(Rendered(convert, alerts)[..i], BlockSizes(alerts)[..i]);
  }

  /**
   * Block order: before the pop, alert i's blocks sit, unchanged, right
   * after the blocks of the alerts before it.
   */
  lemma BlocksInOrder(convert: Converter, alerts: seq<Alert>, i: nat)
    requires i < |alerts|
    ensures var start, bs := Sum(BlockSizes(alerts)[..i]), AlertBlocks(convert, alerts[i]);
      && start + |bs| <= |AllBlocks(convert, alerts)|
      && AllBlocks(convert, alerts)[start..start + |bs|] == bs
  {
    ConcatSlice(Rendered(convert, alerts), i);
    PrefixLength(convert, alerts, i);
  }

  /**
   * The final element list: empty for an empty batch (nothing popped);
   * otherwise the loop's list without its last separator, one element
   * shorter, with n - 1 separators for n alerts, and never ending in one.
   */
  lemma CardElementsRules(convert: Converter, alerts: seq<Alert>)
    ensures |alerts| == 0 ==> CardElements(convert, alerts) == []
    ensures |alerts| > 0 ==>
      && |CardElements(convert, alerts)| == BlockCount(alerts) - 1
      && CardElements(convert, alerts) + [Hr] == AllBlocks(convert, alerts)
      && Occurrences(CardElements(convert, alerts), Hr) == |alerts| - 1
    ensures var es := CardElements(convert, alerts); |es| > 0 ==> es[|es| - 1] != Hr
  {
    AllBlocksCounts(convert, alerts);
    if |alerts| > 0 {
      RenderedShapes(convert, alerts);
      ConcatEndsInSeparator(Rendered(convert, alerts));
      DropSeparator(AllBlocks(convert, alerts));
    } else {
      assert Rendered(convert, alerts) == [];
    }
  }

  /** Every group of blocks ends in its one separator. */
  predicate Grouped(parts: seq<seq<Element>>)
  {
    forall j :: 0 <= j < |parts| ==> SeparatorLast(parts[j])
  }

  lemma RenderedGrouped(convert: Converter, alerts: seq<Alert>)
    ensures Grouped(Rendered(convert, alerts))
  {
    RenderedShapes(convert, alerts);
  }

  /**
   * After the trailing separator is dropped from groups that each end in
   * their only separator, every group but the last is intact and the last
   * has lost just its separator.
   */
  lemma DroppedGroups(parts: seq<seq<Element>>, i: nat)
    requires i < |parts|
    requires Grouped(parts)
    ensures var es, start := DropTrailingHr(Concat(parts)), |Concat(parts[..i])|;
      && (i < |parts| - 1 ==> start + |parts[i]| <= |es| && es[start..start + |parts[i]|] == parts[i])
      && (i == |parts| - 1 ==> |parts[i]| >= 2 && start + |parts[i]| - 1 == |es| && es[start..] == parts[i][..|parts[i]| - 1])
  {
    var all, start := Concat(parts), |Concat(parts[..i])|;
    ConcatSlice(parts, i);
    ConcatEndsInSeparator(parts);
    DropSeparator(all);
    ConcatStep(parts, i);
    if i < |parts| - 1 {
      ConcatSlice(parts, i + 1);
      assert SeparatorLast(parts[i + 1]);
      PrefixSlice(all, |all| - 1, start, start + |parts[i]|);
    } else {
      assert parts[..i + 1] == parts;
      TailWithoutLast(all, DropTrailingHr(all), parts[i], start);
    }
  }

  /**
   * Block order after the pop: every alert but the last keeps all of its
   * blocks, at the same place as before the pop.
   */
  lemma CardBlocksInOrder(convert: Converter, alerts: seq<Alert>, i: nat)
    requires i < |alerts| - 1
    ensures var start, bs := Sum(BlockSizes(alerts)[..i]), AlertBlocks(convert, alerts[i]);
      var es := CardElements(convert, alerts);
      start + |bs| <= |es| && es[start..start + |bs|] == bs
  {
    var parts := Rendered(convert, alerts);
    var es := CardElements(convert, alerts);
    var start := |Concat(parts[..i])|;
    assert es == DropTrailingHr(Concat(parts));
    assert start + |parts[i]| <= |es| && es[start..start + |parts[i]|] == parts[i] by {
      RenderedGrouped(convert, alerts);
      DroppedGroups(parts, i);
    }
    assert parts[i] == AlertBlocks(convert, alerts[i]);
    assert start == Sum(BlockSizes(alerts)[..i]) by {
      PrefixLength(convert, alerts, i);
    }
  }

  /**
   * Block order after the pop, last alert: it keeps every block but its
   * separator, and those blocks end the list.
   */
  lemma LastAlertBlocks(convert: Converter, alerts: seq<Alert>)
    requires |alerts| > 0
    ensures var n := |alerts|;
      var start, bs := Sum(BlockSizes(alerts)[..n - 1]), AlertBlocks(convert, alerts[n - 1]);
      var es := CardElements(convert, alerts);
      |bs| >= 2 && start + |bs| - 1 == |es| && es[start..] == bs[..|bs| - 1]
  {
    RenderedGrouped(convert, alerts);
    DroppedGroups(Rendered(convert, alerts), |alerts| - 1);
    PrefixLength(convert, alerts, |alerts| - 1);
  }

  lemma PrefixSlice<T>(s: seq<T>, m: nat, lo: nat, hi: nat)
    requires lo <= hi <= m <= |s|
    ensures s[..m][lo..hi] == s[lo..hi]
  {
  }

  lemma TailWithoutLast<T>(all: seq<T>, es: seq<T>, bs: seq<T>, start: nat)
    requires |es| + 1 == |all| && all[..|es|] == es
    requires |bs| > 0 && start + |bs| == |all| && all[start..] == bs
    ensures start + |bs| - 1 == |es| && es[start..] == bs[..|bs| - 1]
  {
  }

  /** Total length of the final list: the block count less the popped separator, when there was one. */
  lemma CardLength(convert: Converter, alerts: seq<Alert>)
    ensures |CardElements(convert, alerts)| == if alerts == [] then 0 else BlockCount(alerts) - 1
  {
    CardElementsRules(convert, alerts);
  }

  // ------------------------------------------------------------ envelope

  /**
   * The envelope: message type "interactive", wide-screen mode on, the
   * header carrying the chosen colour and a non-empty title, the elements
   * being the rendered list.
   */
  lemma EnvelopeRules(convert: Converter, alerts: seq<Alert>)
    ensures var m := CardMessage(convert, alerts);
      && m.msgType == "interactive"
      && m.card.config.wideScreenMode
      && m.card.header.template == BatchBanner(alerts).color.Template()
      && m.card.header.title == PlainText(BatchBanner(alerts).title)
      && m.card.header.title.content != ""
      && m.card.elements == CardElements(convert, alerts)
  {
  }

  // ------------------------------------------------------------ scenarios

  function Bare(status: string): Alert
  {
    Alert(status, map[], map[], None, None, None)
  }

  /** An empty batch gives a grey "告警通知" card with no elements. */
  lemma EmptyBatch(convert: Converter)
    ensures CardMessage(convert, []).card.header == Header(PlainText("告警通知"), "grey")
    ensures CardMessage(convert, []).card.elements == []
  {
  }

  /** Two resolved alerts give a green "告警已恢复" header. */
  lemma AllResolved(convert: Converter)
    ensures CardMessage(convert, [Bare(Resolved), Bare(Resolved)]).card.header ==
      Header(PlainText("告警已恢复"), "green")
  {
    var a := Bare(Resolved);
    var alerts := [a, a];
    assert alerts[1..] == [a] && [a][1..] == [];
    assert CountStatus([a], Resolved) == 1 && CountStatus([a], Firing) == 0;
    assert ResolvedCount(alerts) == 2 && FiringCount(alerts) == 0;
  }

  /** One firing and one resolved alert give a red header counting one firing alert. */
  lemma MixedBatch(convert: Converter)
    ensures CardMessage(convert, [Bare(Firing), Bare(Resolved)]).card.header ==
      Header(PlainText("告警触发 (1个)"), "red")
  {
    var f, r := Bare(Firing), Bare(Resolved);
    var alerts := [f, r];
    assert alerts[1..] == [r] && [r][1..] == [];
    assert CountStatus([r], Firing) == 0;
    assert FiringCount(alerts) == 1;
    assert NatToString(1) == "1";
    assert "告警触发 (" + NatToString(1) + "个)" == "告警触发 (1个)";
  }

  /**
   * An alert without labels, annotations or non-empty link renders with the
   * defaults "未知告警", "N/A" and "info", and without an action block.
   */
  lemma BareAlertBlocks(convert: Converter, a: Alert)
    requires a.labels == map[] && a.annotations == map[] && ChartUrl(a) == ""
    ensures AlertBlocks(convert, a) == [
      Div(LarkMd("**" + StatusLabel(a) + " 未知告警**")),
      Div(LarkMd("**实例**：N/A\n**级别**：info\n**触发时间**：" + TriggerTime(convert, a))),
      Hr]
  {
    var t := TriggerTime(convert, a);
    assert TitleText(a) == "**" + StatusLabel(a) + " 未知告警**";
    var ls := DetailLines(a, t);
    assert ls == ["**实例**：N/A", "**级别**：info", "**触发时间**：" + t] by {
      assert InstanceLine(a) == "**实例**：N/A";
      assert SeverityLine(a) == "**级别**：info";
    }
    assert JoinLines(ls) == "**实例**：N/A\n**级别**：info\n**触发时间**：" + t by {
      JoinThree("**实例**：N/A", "**级别**：info", "**触发时间**：", t);
      DefaultDetailPrefix();
    }
  }

  lemma JoinThree(x: string, y: string, p: string, t: string)
    ensures JoinLines([x, y, p + t]) == (x + "\n" + y + "\n" + p) + t
  {
    assert [x, y, p + t][1..] == [y, p + t];
    assert [y, p + t][1..] == [p + t];
    assert JoinLines([y, p + t]) == y + "\n" + (p + t);
    assert JoinLines([x, y, p + t]) == x + "\n" + (y + "\n" + (p + t));
    SeqAssoc(x + "\n", y + "\n", p, t);
  }

  lemma SeqAssoc<T>(a: seq<T>, b: seq<T>, c: seq<T>, d: seq<T>)
    ensures a + (b + (c + d)) == (a + b + c) + d
  {
  }

  lemma DefaultDetailPrefix()
    ensures "**实例**：N/A" + "\n" + "**级别**：info" + "\n" + "**触发时间**：" ==
      "**实例**：N/A\n**级别**：info\n**触发时间**："
  {
  }

  /**
   * With the conversion as written, a firing alert with no optional
   * fields and `startsAt` "not-a-date" gives exactly these two blocks.
   */
  lemma MissingFields()
    ensures var a := Alert(Firing, map[], map[], Some("not-a-date"), None, None);
      CardElements(SourceConvert, [a]) == [
        Div(LarkMd("**告警中 未知告警**")),
        Div(LarkMd("**实例**：N/A\n**级别**：info\n**触发时间**：not-a-date"))]
  {
    var a := Alert(Firing, map[], map[], Some("not-a-date"), None, None);
    assert AllBlocks(SourceConvert, [a]) == AlertBlocks(SourceConvert, a) by {
      var parts := Rendered(SourceConvert, [a]);
      assert parts == [AlertBlocks(SourceConvert, a)];
      assert parts[..0] == [];
      assert Concat(parts) == Concat(parts[..0]) + parts[0];
      assert [] + parts[0] == parts[0];
    }
    BareAlertBlocks(SourceConvert, a);
    assert TriggerTime(SourceConvert, a) == "not-a-date";
    assert StatusLabel(a) == "告警中";
    assert "**" + "告警中" + " 未知告警**" == "**告警中 未知告警**";
    assert "**实例**：N/A\n**级别**：info\n**触发时间**：" + "not-a-date" ==
      "**实例**：N/A\n**级别**：info\n**触发时间**：not-a-date";
    var bs := AlertBlocks(SourceConvert, a);
    assert CardElements(SourceConvert, [a]) == bs[..2];
  }
}
