# Feishu alert card builder

A Dafny model of `build_feishu_card` in the feishu-proxy service. The service
receives an Alertmanager webhook payload: a batch of alerts, each with a
status, labels, annotations, a start time and a Prometheus chart link. It
turns the batch into one Feishu (Lark) interactive card message:

- The header is green ("告警已恢复") when something resolved and nothing
  fires. It is red ("告警触发 (N个)", where N is the number of firing alerts)
  when anything fires. Otherwise it is grey ("告警通知").
- Each alert adds the following blocks to the card body, in this order:
  - a title block with "已恢复" or "告警中" and the alert name;
  - a details block of `\n`-joined lines. The lines are instance, severity
    and trigger time, then the summary and the description when these are
    non-empty;
  - a "查看图表" button, when the alert has a non-empty chart link;
  - a separator.
- The separator after the last alert is removed.

Modules:

- `Wrappers` holds `Option`, which models the `.get(key, "")` reads of the
  optional alert fields.
- `TextFormat` holds decimal rendering of counts and `"\n"` joining, with
  their inverses.
- `Alertmanager` holds the input alert record and the status counts.
- `Sequences` holds generic facts about concatenating groups of blocks.
- `FeishuCard` holds the card as a datatype tree and the rendering as pure
  functions. Together they are the reference definition of the card.
- `CardBuilder` holds the imperative code: the loop that appends blocks and
  then drops the trailing separator, and the function that assembles the
  message. Each method is proved equal to the reference definition.
- `CardProperties` holds what the builder promises, stated and proved about
  the reference definition.

Modelling decisions:

- **The timestamp conversion is a parameter.** The conversion at
  `feishu_alert_proxy.py:46-51` is passed in as a `Converter`, a function
  that either returns the converted text or fails. On failure the raw
  `startsAt` text is shown.
  - As written, the conversion's zone argument is
    `datetime.strptime("Asia/Shanghai", "%Z%z")` (line 48). The `%z`
    directive needs a numeric UTC offset or `Z` at the end of the text, and
    "Asia/Shanghai" has neither, so `strptime` raises `ValueError` for every
    input.
  - `FeishuCard.SourceConvert` models that: it always fails. So the card
    always shows the raw `startsAt`, as `CardProperties.SourceTriggerTimeIsRaw`
    states.
  - Every other property except `CardProperties.MissingFields` is proved for any converter.
- **Card texts are the strings the code emits.** The header, label and
  button texts are the Chinese strings in the code, not English
  descriptions of them.
- **Any status string is accepted.** A status is a plain string, as in the
  code. Only "firing" counts toward red, and only "resolved" counts toward
  green or gets the "已恢复" label. Any other value counts toward neither
  colour and is labelled "告警中".

## Model

| member | source | states |
|---|---|---|
| `TextFormat.NatToString` | feishu-proxy/feishu_alert_proxy.py:31 | the firing count rendered in the red title is a non-empty string of decimal digits, with a leading '0' only for 0 and one digit exactly below 10 |
| `TextFormat.ParseNatToString` | feishu-proxy/feishu_alert_proxy.py:31 | reading the rendered digits back gives the count: decimal rendering round-trips |
| `TextFormat.NatToStringInjective` | feishu-proxy/feishu_alert_proxy.py:31 | different counts give different titles |
| `TextFormat.SplitJoinLines` | feishu-proxy/feishu_alert_proxy.py:79 | for a non-empty list of lines none of which contains a newline, splitting the `"\n"`-joined text at newlines gives back exactly the lines |
| `Alertmanager.CountStatus` | feishu-proxy/feishu_alert_proxy.py:22-23 | a status count never exceeds the number of alerts |
| `Alertmanager.CountPositiveIff` | feishu-proxy/feishu_alert_proxy.py:22-23 | a status count is positive if and only if some alert has that status |
| `Alertmanager.CountAllIff` | feishu-proxy/feishu_alert_proxy.py:22-23 | a status count equals the batch size if and only if every alert has that status |
| `Alertmanager.CountsPartition` | feishu-proxy/feishu_alert_proxy.py:22-23 | firing count plus resolved count is at most the batch size, with equality if and only if every status is "firing" or "resolved" |
| `CardBuilder.BuildFields` | feishu-proxy/feishu_alert_proxy.py:65-73 | the detail lines built by list appends equal the reference line list |
| `CardBuilder.AppendAlertBlocks` | feishu-proxy/feishu_alert_proxy.py:56-97 | one loop iteration extends the elements built so far by exactly the next alert's blocks |
| `CardBuilder.BuildElements` | feishu-proxy/feishu_alert_proxy.py:36-101 | the append loop plus the conditional `pop` produce exactly the reference card body |
| `CardBuilder.BuildFeishuCard` | feishu-proxy/feishu_alert_proxy.py:17-114 | the assembled message equals the reference card message for the batch |
| `CardProperties.HeaderRules` | feishu-proxy/feishu_alert_proxy.py:22-34 | the header is green if and only if some alert is resolved and none fires, red if and only if some alert fires, grey if and only if neither; the titles are "告警已恢复", "告警触发 (N个)" with N the firing count, and "告警通知" |
| `CardProperties.RedTitleShowsCount` | feishu-proxy/feishu_alert_proxy.py:29-31 | in a red header the text between "告警触发 (" and "个)" is all digits and reads back as the number of firing alerts |
| `CardProperties.HeaderWellFormed` | feishu-proxy/feishu_alert_proxy.py:26-34 | the header title is never empty and its template is one of "green", "red", "grey" |
| `CardProperties.TitleRules` | feishu-proxy/feishu_alert_proxy.py:53-62 | the title block is `**<label> <name>**` in lark_md; the label is "已恢复" exactly for status "resolved" and "告警中" otherwise; the name is the alertname label or "未知告警"; the name can be read back from the title |
| `CardProperties.DetailRules` | feishu-proxy/feishu_alert_proxy.py:65-73 | 3 to 5 detail lines: instance (default "N/A"), severity (default "info") and trigger time in that order, then a summary line exactly when the summary is present and non-empty, and a description line last exactly when the description is present and non-empty |
| `CardProperties.DetailBlockLines` | feishu-proxy/feishu_alert_proxy.py:75-81 | the details block is lark_md, and when the shown values contain no newline, splitting its text at newlines recovers the detail lines one for one |
| `CardProperties.TriggerTimeRules` | feishu-proxy/feishu_alert_proxy.py:42-51 | the trigger time is the converted start time when the conversion succeeds and the raw `startsAt` otherwise, and a missing `startsAt` reads as "" |
| `CardProperties.SourceTriggerTimeIsRaw` | feishu-proxy/feishu_alert_proxy.py:46-51 | with the conversion as written, every card shows the raw `startsAt` |
| `CardProperties.ActionRules` | feishu-proxy/feishu_alert_proxy.py:84-94 | there is at most one action block, present if and only if the chart link is present and non-empty, holding one "primary" "查看图表" button whose url is the link |
| `CardProperties.AlertBlocksRules` | feishu-proxy/feishu_alert_proxy.py:53-97 | one alert's blocks are title, details, the optional action, then a separator: 3 blocks plus one for a link, with the separator last and nowhere else |
| `CardProperties.SeparatorLastOnce` | feishu-proxy/feishu_alert_proxy.py:97 | a group whose only separator is last holds exactly one separator |
| `CardProperties.RenderedShapes` | feishu-proxy/feishu_alert_proxy.py:39-97 | every alert's group has its reference size and ends in its one separator |
| `CardProperties.AllBlocksCounts` | feishu-proxy/feishu_alert_proxy.py:39-97 | before the pop the body has the sum of the group sizes as its length and exactly one separator per alert |
| `CardProperties.BlocksInOrder` | feishu-proxy/feishu_alert_proxy.py:39-97 | before the pop, alert i's blocks sit unchanged right after the blocks of the alerts before it |
| `CardProperties.DropSeparator` | feishu-proxy/feishu_alert_proxy.py:99-101 | on a list of at least two elements whose last element is a separator and whose second-to-last is not, the pop removes exactly that separator: one element and one separator fewer, and the new last element is no separator |
| `CardProperties.CardElementsRules` | feishu-proxy/feishu_alert_proxy.py:99-101 | an empty batch gives an empty body; otherwise the body is the appended blocks minus the final separator, so it has one element and one separator fewer than the alerts produced; the body never ends in a separator |
| `CardProperties.CardBlocksInOrder` | feishu-proxy/feishu_alert_proxy.py:39-101 | after the pop, every alert but the last keeps all its blocks, in order and in place |
| `CardProperties.LastAlertBlocks` | feishu-proxy/feishu_alert_proxy.py:97-101 | after the pop, the last alert's blocks except its separator end the body |
| `CardProperties.CardLength` | feishu-proxy/feishu_alert_proxy.py:39-101 | the body has 0 elements for an empty batch, else the sum of 3 per alert plus 1 per chart link, minus 1 |
| `CardProperties.EnvelopeRules` | feishu-proxy/feishu_alert_proxy.py:103-114 | the message is of type "interactive" with wide-screen mode on; its header is a non-empty plain_text title with the header colour as template; its elements are the card body |
| `CardProperties.EmptyBatch` | feishu-proxy/feishu_alert_proxy.py:32-34 | an empty batch gives a grey "告警通知" header and no elements |
| `CardProperties.AllResolved` | feishu-proxy/feishu_alert_proxy.py:26-28 | a batch of two bare resolved alerts (no labels, annotations, times or link) gives a green "告警已恢复" header |
| `CardProperties.MixedBatch` | feishu-proxy/feishu_alert_proxy.py:29-31 | a bare firing alert and a bare resolved alert (no labels, annotations, times or link) give a red "告警触发 (1个)" header |
| `CardProperties.BareAlertBlocks` | feishu-proxy/feishu_alert_proxy.py:40-97 | an alert without labels or annotations and with no or an empty chart link renders as a title with "未知告警", details with "N/A" and "info", and a separator, with no action block |
| `CardProperties.MissingFields` | feishu-proxy/feishu_alert_proxy.py:39-101 | one concrete batch, under the conversion as written (`SourceConvert`): a lone firing alert with no labels, no annotations, no chart link and the unparseable start time "not-a-date" gives exactly two blocks: its title and its details, showing the raw start time, with no trailing separator |

## Left out

- Flask routes `/alert` and `/health`, the JSON content-type and empty-payload checks, and the HTTP status codes (lines 119-156): these are web framework I/O, outside the card builder.
- Posting the card to Feishu with `requests.post`, its 10-second timeout and its error handling (lines 138-149): network I/O.
- `print` logging and `app.run` (lines 132, 146, 148, 159-161): console and server I/O.
- `json.dumps(card, ensure_ascii=False)` (line 116): the model returns the card as a structured `Message` value, not as serialised JSON text.
- The `datetime` calls (`fromisoformat`, `astimezone`, `strftime`, lines 47-49): this is library date arithmetic. It is a `Converter` parameter, and the behaviour as written is `SourceConvert`.
- `FEISHU_WEBHOOK` (line 14): only the network call uses it.
- A payload without an "alerts" key, or an alert without a "status" key, raises `KeyError` in the code (lines 22, 39, 53). The model takes the alert list and status as given, so that error path is not modelled.
- JSON values of the wrong type, which the model cannot express because it types labels and annotations as string maps and every field as a string. In the code, a `labels` or `annotations` value that is `null` or not an object makes `.get` raise an uncaught `AttributeError` (lines 60, 66-67, 70, 72). A `startsAt` that is not a string makes the conversion raise, the bare `except` catches it, and the value is shown as Python prints it (lines 46-51). Non-string label or annotation values are likewise formatted by Python, which the model does not capture.
- `endsAt` (line 43) is read but never used by the code. The model keeps the field and nothing depends on it.
