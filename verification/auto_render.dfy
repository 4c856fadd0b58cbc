/**
 * The auto-render scan each bundle runs once the document is ready: every
 * container carrying the chart's marker attribute has its data attributes
 * read into render options, and a failure on one container is caught and
 * logged without stopping the others. Also the data defaulting of the
 * `render…Chart` entry points.
 */
module AutoRender {
  import opened Wrappers
  import opened Records

  datatype ChartKind = Bar | Line | Pie

  /**
   * A JSON-carrying attribute as the scan sees it: absent (`null`), empty,
   * or present, with what `JSON.parse` makes of it.
   */
  datatype JsonAttr<T> = Missing | Blank | Parsed(value: T) | Malformed

  /** A marked container: its id and the attributes `getAttribute` returns (None for `null`). */
  datatype Container = Container(
    id: string,
    chartData: JsonAttr<seq<Record>>,
    title: Option<string>,
    showLogo: Option<string>,
    sourceText: Option<string>,
    sourceUrl: Option<string>,
    notesDescription: Option<string>,
    fieldLabels: JsonAttr<map<string, string>>,
    showInnerRadius: Option<string>,
    showLabels: Option<string>,
    showLegend: Option<string>)

  /** The options every chart kind receives; `data` None stands for `undefined`. */
  datatype CommonOptions = CommonOptions(
    data: Option<seq<Record>>,
    title: Option<string>,
    showLogo: bool,
    sourceText: Option<string>,
    sourceUrl: Option<string>,
    notesDescription: Option<string>)

  /** The options object passed to each kind's render entry point. */
  datatype RenderOptions =
    | BarOptions(common: CommonOptions)
    | LineOptions(common: CommonOptions, fieldLabels: map<string, string>)
    | PieOptions(common: CommonOptions, showInnerRadius: bool, showLabels: bool, showLegend: bool)

  /**
   * What the scan does with one container: request a render of the chart
   * into the element with the container's id, or catch and log the error.
   */
  datatype Outcome = Rendered(id: string, options: RenderOptions) | Logged(id: string)

  /** A flag that is on unless the attribute says exactly "false" (logo, labels, legend). */
  function OnUnlessFalse(attr: Option<string>): (on: bool)
    ensures !on <==> attr == Some("false")
    ensures attr.None? ==> on
  {
    attr != Some("false")
  }

  /** A flag that is off unless the attribute says exactly "true" (inner radius). */
  function OffUnlessTrue(attr: Option<string>): (on: bool)
    ensures on <==> attr == Some("true")
    ensures attr.None? ==> !on
  {
    attr == Some("true")
  }

  /** The outcome of reading a JSON attribute: a value (None for `undefined`) or a thrown error. */
  datatype Read<T> = Got(v: Option<T>) | Threw

  /** `attr ? JSON.parse(attr) : undefined`: an absent or empty attribute is never parsed. */
  function ReadJson<T>(attr: JsonAttr<T>): (r: Read<T>)
    ensures r.Threw? <==> attr.Malformed?
    ensures r == Got(None) <==> attr.Missing? || attr.Blank?
    ensures attr.Parsed? ==> r == Got(Some(attr.value))
  {
    match attr
    case Missing => Got(None)
    case Blank => Got(None)
    case Parsed(v) => Got(Some(v))
    case Malformed => Threw
  }

  /** Whether reading this container throws for the given chart kind. */
  predicate Throws(kind: ChartKind, c: Container) {
    c.chartData.Malformed? || (kind == Line && c.fieldLabels.Malformed?)
  }

  /**
   * The body of the scan's `forEach` callback for one container: the
   * attributes become the kind's options, and a malformed JSON attribute
   * makes the callback log instead of render.
   */
  function ReadContainer(kind: ChartKind, c: Container): (r: Outcome)
    ensures r.Logged? <==> Throws(kind, c)
    ensures r.id == c.id
    ensures r.Rendered? ==> r.options.common.data == ReadJson(c.chartData).v
    ensures r.Rendered? ==> r.options.common.showLogo == OnUnlessFalse(c.showLogo)
    ensures r.Rendered? ==>
              && r.options.common.title == c.title
              && r.options.common.sourceText == c.sourceText
              && r.options.common.sourceUrl == c.sourceUrl
              && r.options.common.notesDescription == c.notesDescription
    ensures r.Rendered? ==> (kind == Bar <==> r.options.BarOptions?) && (kind == Pie <==> r.options.PieOptions?)
    ensures r.Rendered? && kind == Pie ==>
              && r.options.showInnerRadius == OffUnlessTrue(c.showInnerRadius)
              && r.options.showLabels == OnUnlessFalse(c.showLabels)
              && r.options.showLegend == OnUnlessFalse(c.showLegend)
    ensures r.Rendered? && kind == Line ==>
              r.options.fieldLabels == (if c.fieldLabels.Parsed? then c.fieldLabels.value else map[])
  {
    match ReadJson(c.chartData)
    case Threw => Logged(c.id)
    case Got(data) =>
      var common := CommonOptions(data, c.title, OnUnlessFalse(c.showLogo), c.sourceText, c.sourceUrl, c.notesDescription);
      match kind
      case Bar => Rendered(c.id, BarOptions(common))
      case Line =>
        (match ReadJson(c.fieldLabels)
         case Threw => Logged(c.id)
         case Got(labels) => Rendered(c.id, LineOptions(common, if labels.Some? then labels.value else map[])))
      case Pie =>
        Rendered(c.id, PieOptions(common, OffUnlessTrue(c.showInnerRadius), OnUnlessFalse(c.showLabels), OnUnlessFalse(c.showLegend)))
  }

  /**
   * The scan: `chartContainers.forEach` with a `try`/`catch` around each
   * container. Every container gets its own outcome, so one malformed
   * container does not keep the others from rendering.
   */
  method ScanContainers(kind: ChartKind, containers: seq<Container>) returns (outcomes: seq<Outcome>)
    ensures |outcomes| == |containers|
    ensures forall i :: 0 <= i < |containers| ==> outcomes[i] == ReadContainer(kind, containers[i])
    ensures forall i :: 0 <= i < |containers| ==> (outcomes[i].Rendered? <==> !Throws(kind, containers[i]))
  {
    outcomes := [];
    for i := 0 to |containers|
      invariant |outcomes| == i
      invariant forall j :: 0 <= j < i ==> outcomes[j] == ReadContainer(kind, containers[j])
    {
      outcomes := outcomes + [ReadContainer(kind, containers[i])];
    }
  }

  /** `samplePaymentsData` of the bar chart. */
  const BarSample: seq<Record> := [
    Record("Q1 2024", [("volume", Number(145000)), ("value", Number(32060))]),
    Record("Q2 2024", [("volume", Number(162000)), ("value", Number(42150))]),
    Record("Q3 2024", [("volume", Number(158000)), ("value", Number(43320))]),
    Record("Q4 2024", [("volume", Number(171000)), ("value", Number(46840))]),
    Record("Q1 2025", [("volume", Number(189000)), ("value", Number(51200))]),
    Record("Q2 2025", [("volume", Number(203000)), ("value", Number(56780))])
  ]

  /** `samplePaymentsData` of the line chart. */
  const LineSample: seq<Record> := [
    Record("Q1 2024", [("volume", Number(145000)), ("value", Number(32060))]),
    Record("Q2 2024", [("volume", Number(162000)), ("value", Number(42150))]),
    Record("Q3 2024", [("volume", Number(158000)), ("value", Number(43320))]),
    Record("Q4 2024", [("volume", Number(171000)), ("value", Number(46840))])
  ]

  /** `samplePaymentsPieData`. */
  const PieSample: seq<Record> := [
    Record("Card payments", [("volume", Number(145000))]),
    Record("Bank transfers", [("volume", Number(89000))]),
    Record("Digital wallets", [("volume", Number(67000))]),
    Record("Direct debit", [("volume", Number(34000))]),
    Record("Cash", [("volume", Number(12000))]),
    Record("Cheques", [("volume", Number(3000))])
  ]

  /** The sample each chart kind draws when it is given no data. */
  function Sample(kind: ChartKind): seq<Record> {
    match kind
    case Bar => BarSample
    case Line => LineSample
    case Pie => PieSample
  }

  /**
   * `options.data || sample…Data`: without data the entry point draws its
   * sample; an empty array is truthy and is drawn as it is.
   */
  function MountData(kind: ChartKind, data: Option<seq<Record>>): (r: seq<Record>)
    ensures data.Some? ==> r == data.value
    ensures data.None? ==> r == Sample(kind) && |r| > 0
  {
    match data
    case Some(d) => d
    case None => Sample(kind)
  }
}
