/**
 * The outbound side: the Feishu interactive-card document as a tree of
 * values (what `json.dumps` would serialise), and the rendering rules
 * that map an Alertmanager batch to it, stated as functions.
 */
module FeishuCard {
  import opened Wrappers
  import opened TextFormat
  import opened Alertmanager
  import opened Sequences

  /** A text object: `{"tag": "plain_text", ...}` or `{"tag": "lark_md", ...}`. */
  datatype Text = PlainText(content: string) | LarkMd(content: string)

  /** `{"tag": "button", "text": ..., "type": ..., "url": ...}`. */
  datatype Button = Button(text: Text, buttonType: string, url: string)

  /** One entry of the card's `elements` list. */
  datatype Element = Div(text: Text) | Action(actions: seq<Button>) | Hr {
    /** The element's "tag" member. */
    function Tag(): string
    {
      match this
      case Div(_) => "div"
      case Action(_) => "action"
      case Hr => "hr"
    }
  }

  datatype Config = Config(wideScreenMode: bool)
  datatype Header = Header(title: Text, template: string)
  datatype Card = Card(config: Config, header: Header, elements: seq<Element>)

  /** The whole message: `{"msg_type": ..., "card": ...}`. */
  datatype Message = Message(msgType: string, card: Card)

  datatype Color = Green | Red | Grey {
    /** The header "template" value naming the colour. */
    function Template(): string
    {
      match this
      case Green => "green"
      case Red => "red"
      case Grey => "grey"
    }
  }

  /** Colour and title of the header. */
  datatype Banner = Banner(color: Color, title: string)

  /**
   * A timestamp conversion that may fail: `Some(text)` when it produced
   * the converted time, `None` when it raised.
   */
  type Converter = string -> Option<string>

  /**
   * The conversion as written at feishu_alert_proxy.py:47-49.  Its zone
   * argument, `strptime("Asia/Shanghai", "%Z%z")`, can never be parsed:
   * `%z` needs a numeric UTC offset or `Z` at the end of the text, and
   * "Asia/Shanghai" has neither, so `strptime` raises `ValueError` for
   * every input and the `except` branch always runs.
   */
  function SourceConvert(raw: string): Option<string>
  {
    None
  }

  /** Header choice, in priority order, from the two status counts. */
  function ChooseBanner(firing: nat, resolved: nat): Banner
  {
    if resolved > 0 && firing == 0 then Banner(Green, "告警已恢复")
    else if firing > 0 then Banner(Red, "告警触发 (" + NatToString(firing) + "个)")
    else Banner(Grey, "告警通知")
  }

  function BatchBanner(alerts: seq<Alert>): Banner
  {
    ChooseBanner(FiringCount(alerts), ResolvedCount(alerts))
  }

  /** The raw `startsAt`, defaulting to the empty string. */
  function RawStart(a: Alert): string { a.startsAt.GetOr("") }

  /** The trigger time shown: the converted value, or the raw text when conversion fails. */
  function TriggerTime(convert: Converter, a: Alert): string
  {
    match convert(RawStart(a))
    case Some(t) => t
    case None => RawStart(a)
  }

  function StatusLabel(a: Alert): string
  {
    if a.status == Resolved then "已恢复" else "告警中"
  }

  function AlertName(a: Alert): string { Lookup(a.labels, "alertname", "未知告警") }
  function Instance(a: Alert): string { Lookup(a.labels, "instance", "N/A") }
  function Severity(a: Alert): string { Lookup(a.labels, "severity", "info") }

  function TitleText(a: Alert): string
  {
    "**" + StatusLabel(a) + " " + AlertName(a) + "**"
  }

  function InstanceLine(a: Alert): string { "**实例**：" + Instance(a) }
  function SeverityLine(a: Alert): string { "**级别**：" + Severity(a) }
  function TimeLine(startTime: string): string { "**触发时间**：" + startTime }
  function SummaryLine(a: Alert): string
    requires "summary" in a.annotations
  {
    "**概要**：" + a.annotations["summary"]
  }
  function DescriptionLine(a: Alert): string
    requires "description" in a.annotations
  {
    "**详情**：" + a.annotations["description"]
  }

  /** The detail lines of one alert, given its formatted trigger time. */
  function DetailLines(a: Alert, startTime: string): seq<string>
  {
    [InstanceLine(a), SeverityLine(a), TimeLine(startTime)]
    + (if HasText(a.annotations, "summary") then [SummaryLine(a)] else [])
    + (if HasText(a.annotations, "description") then [DescriptionLine(a)] else [])
  }

  function TitleBlock(a: Alert): Element { Div(LarkMd(TitleText(a))) }

  function DetailBlock(convert: Converter, a: Alert): Element
  {
    Div(LarkMd(JoinLines(DetailLines(a, TriggerTime(convert, a)))))
  }

  /** `generatorURL`, defaulting to the empty string. */
  function ChartUrl(a: Alert): string { a.generatorURL.GetOr("") }

  function ChartButton(url: string): Button
  {
    Button(PlainText("查看图表"), "primary", url)
  }

  /** The "view chart" action block, present only for a non-empty link. */
  function ActionBlocks(a: Alert): seq<Element>
  {
    if ChartUrl(a) != "" then [Action([ChartButton(ChartUrl(a))])] else []
  }

  /** Everything one alert appends, separator included. */
  function AlertBlocks(convert: Converter, a: Alert): seq<Element>
  {
    [TitleBlock(a), DetailBlock(convert, a)] + ActionBlocks(a) + [Hr]
  }

  /** Each alert's blocks, in batch order. */
  function Rendered(convert: Converter, alerts: seq<Alert>): seq<seq<Element>>
  {
    seq(|alerts|, i requires 0 <= i < |alerts| => AlertBlocks(convert, alerts[i]))
  }

  /** The element list after the loop over the batch, before the trailing separator is dropped. */
  function AllBlocks(convert: Converter, alerts: seq<Alert>): seq<Element>
  {
    Concat(Rendered(convert, alerts))
  }

  /** Removes the last element if it is a separator. */
  function DropTrailingHr(es: seq<Element>): seq<Element>
  {
    if |es| > 0 && es[|es| - 1].Tag() == "hr" then es[..|es| - 1] else es
  }

  function CardElements(convert: Converter, alerts: seq<Alert>): seq<Element>
  {
    DropTrailingHr(AllBlocks(convert, alerts))
  }

  /** The card envelope around a header and an element list. */
  function Envelope(banner: Banner, elements: seq<Element>): Message
  {
    Message("interactive",
      Card(Config(true), Header(PlainText(banner.title), banner.color.Template()), elements))
  }

  /** The whole document built for a batch. */
  function CardMessage(convert: Converter, alerts: seq<Alert>): Message
  {
    Envelope(BatchBanner(alerts), CardElements(convert, alerts))
  }
}
