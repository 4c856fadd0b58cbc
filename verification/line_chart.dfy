/**
 * The line chart's data shaping: one line per numeric field of the first
 * record, labelled by an override or by a name generated from the key,
 * coloured by position; the footer's line count; and the component's
 * state (window width, current page).
 */
module LineChart {
  import opened Breakpoints
  import opened Records
  import opened Pagination
  import opened Text

  /** One `<Line>`: the field it plots, its legend name, its stroke colour and width. */
  datatype LineSeries = LineSeries(key: string, name: string, color: string, strokeWidth: nat)

  /** `colors`: the five brand colours, cycled by the line's position. */
  const LineColors: seq<string> := ["#00dfb8", "#00573B", "#00C29D", "#007152", "#00A783"]

  /** `.replace(/([A-Z])/g, ' $1')`: a space before every upper-case ASCII letter. */
  function InsertSpaces(s: string): (t: string)
    ensures |t| > 0 ==> !IsUpper(t[0])
  {
    if |s| == 0 then ""
    else if IsUpper(s[0]) then [' ', s[0]] + InsertSpaces(s[1..])
    else [s[0]] + InsertSpaces(s[1..])
  }

  /** Removes the space in front of each upper-case letter: the inverse of InsertSpaces. */
  function Unspace(t: string): string
    decreases |t|
  {
    if |t| == 0 then ""
    else if |t| >= 2 && t[0] == ' ' && IsUpper(t[1]) then [t[1]] + Unspace(t[2..])
    else [t[0]] + Unspace(t[1..])
  }

  /** Inserting the spaces loses nothing: removing them again gives back the key. */
  lemma {:induction false} UnspaceInsertSpaces(s: string)
    ensures Unspace(InsertSpaces(s)) == s
  {
    if |s| > 0 {
      UnspaceInsertSpaces(s[1..]);
      var t := InsertSpaces(s);
      if IsUpper(s[0]) {
        assert t[2..] == InsertSpaces(s[1..]);
      } else {
        assert t[1..] == InsertSpaces(s[1..]);
        assert !(|t| >= 2 && t[0] == ' ' && IsUpper(t[1]));
      }
      assert s == [s[0]] + s[1..];
    }
  }

  /** In the spaced text every upper-case letter comes right after a space. */
  lemma {:induction false} InsertSpacesSpaced(s: string)
    ensures forall i :: 0 <= i < |InsertSpaces(s)| && IsUpper(InsertSpaces(s)[i]) ==> i > 0 && InsertSpaces(s)[i - 1] == ' '
  {
    if |s| > 0 {
      InsertSpacesSpaced(s[1..]);
      var t, rest := InsertSpaces(s), InsertSpaces(s[1..]);
      var p := if IsUpper(s[0]) then 2 else 1;
      assert t[p..] == rest;
      forall i | 0 <= i < |t| && IsUpper(t[i]) ensures i > 0 && t[i - 1] == ' ' {
        if i > p {
          assert t[i] == rest[i - p] && t[i - 1] == rest[i - 1 - p];
        }
      }
    }
  }

  /**
   * The label generated for a key without an override: the first character
   * upper-cased, and on tablet and desktop a space before every later
   * upper-case letter (`"activeUsers"` becomes `"Active Users"`).
   */
  function GeneratedLabel(d: Device, key: string): (r: string)
    ensures |key| == 0 ==> r == ""
    ensures |key| > 0 ==> |r| > 0 && r[0] == UpperChar(key[0])
    ensures |key| > 0 && d == Mobile ==> r[1..] == key[1..]
    ensures |key| > 0 && d != Mobile ==> r[1..] == InsertSpaces(key[1..])
    ensures |key| > 0 && d != Mobile ==> Unspace(r[1..]) == key[1..] && |r| >= |key|
  {
    if |key| == 0 then ""
    else if d == Mobile then [UpperChar(key[0])] + key[1..]
    else
      UnspaceInsertSpaces(key[1..]);
      InsertSpacesLength(key[1..]);
      [UpperChar(key[0])] + InsertSpaces(key[1..])
  }

  lemma {:induction false} InsertSpacesLength(s: string)
    ensures |InsertSpaces(s)| >= |s|
  {
    if |s| > 0 { InsertSpacesLength(s[1..]); }
  }

  /**
   * `fieldLabels[key] || generated`: a non-empty override wins on every
   * device; a missing or empty one falls through to the generated label.
   */
  function LineLabel(d: Device, key: string, fieldLabels: map<string, string>): (r: string)
    ensures key in fieldLabels && fieldLabels[key] != "" ==> r == fieldLabels[key]
    ensures !(key in fieldLabels && fieldLabels[key] != "") ==> r == GeneratedLabel(d, key)
  {
    if key in fieldLabels && fieldLabels[key] != "" then fieldLabels[key] else GeneratedLabel(d, key)
  }

  /** Given `fieldLabels = {volume: "Custom"}`, the volume line is "Custom" on every device. */
  lemma OverrideEveryDevice(key: string, fieldLabels: map<string, string>, d1: Device, d2: Device)
    requires key in fieldLabels && fieldLabels[key] != ""
    ensures LineLabel(d1, key, fieldLabels) == LineLabel(d2, key, fieldLabels) == fieldLabels[key]
  {
  }

  /** `dataKeys.slice(0, maxLines).map((key, index) => …)`. */
  function LinesFor(keys: seq<string>, d: Device, fieldLabels: map<string, string>): (r: seq<LineSeries>)
    ensures |r| == |keys|
    ensures forall i :: 0 <= i < |r| ==>
              r[i] == LineSeries(keys[i], LineLabel(d, keys[i], fieldLabels), LineColors[i % 5], if d == Mobile then 2 else 3)
  {
    seq(|keys|, i requires 0 <= i < |keys| =>
      LineSeries(keys[i], LineLabel(d, keys[i], fieldLabels), LineColors[i % 5], if d == Mobile then 2 else 3))
  }

  /**
   * `getLineConfigs`: nothing for no records; otherwise the first 2, 3 or 5
   * numeric fields of the first record, in key order, each named by
   * LineLabel, coloured by its position, 2 pixels wide on mobile and 3
   * otherwise.
   */
  function LineConfigs(data: seq<Record>, d: Device, fieldLabels: map<string, string>): (r: seq<LineSeries>)
    ensures |data| == 0 ==> r == []
    ensures |data| > 0 ==> |r| == Min(|NumericKeys(data[0])|, MaxSeries(d))
    ensures |data| > 0 ==> forall i :: 0 <= i < |r| ==>
              && r[i].key == NumericKeys(data[0])[i]
              && r[i].name == LineLabel(d, r[i].key, fieldLabels)
              && r[i].color == LineColors[i % 5]
              && r[i].strokeWidth == (if d == Mobile then 2 else 3)
  {
    if |data| == 0 then []
    else
      var keys := NumericKeys(data[0]);
      LinesFor(keys[..Min(|keys|, MaxSeries(d))], d, fieldLabels)
  }

  /** Every line plots a numeric field of the first record other than `name`. */
  lemma LineKeysNumeric(data: seq<Record>, d: Device, fieldLabels: map<string, string>, i: nat)
    requires |data| > 0 && i < |LineConfigs(data, d, fieldLabels)|
    ensures LineConfigs(data, d, fieldLabels)[i].key != "name"
    ensures exists v :: (LineConfigs(data, d, fieldLabels)[i].key, Number(v)) in data[0].fields
  {
    NumericFieldsSpec(data[0].fields);
    assert LineConfigs(data, d, fieldLabels)[i].key in NumericKeys(data[0]);
  }

  /** No two lines plot the same field or share a colour. */
  lemma LinesDistinct(data: seq<Record>, d: Device, fieldLabels: map<string, string>, i: nat, j: nat)
    requires |data| > 0 && i < j < |LineConfigs(data, d, fieldLabels)|
    ensures LineConfigs(data, d, fieldLabels)[i].key != LineConfigs(data, d, fieldLabels)[j].key
    ensures LineConfigs(data, d, fieldLabels)[i].color != LineConfigs(data, d, fieldLabels)[j].color
  {
    var r := LineConfigs(data, d, fieldLabels);
    var keys := NumericKeys(data[0]);
    assert r[i].key == keys[i] && r[j].key == keys[j];
    assert keys[i] != keys[j] by {
      NumericFieldsSpec(data[0].fields);
    }
    assert j < 5;
    assert i % 5 == i && j % 5 == j;
    assert r[i].color == LineColors[i] && r[j].color == LineColors[j];
  }

  /** The subtitle: the single-trend wording exactly when there is one line. */
  function Subtitle(d: Device, lineCount: nat): (r: string)
    ensures lineCount == 1 <==> r == "Trend analysis" || r == "Trend analysis over time"
  {
    if lineCount == 1 then (if d == Mobile then "Trend analysis" else "Trend analysis over time")
    else (if d == Mobile then "Multi-metric trends" else "Multi-metric trend analysis")
  }

  /** The footer's count: `N line` for one line, `N lines` otherwise. */
  function LineCount(n: nat): (r: string)
    ensures |r| > |Decimal(n)|
    ensures r[..|Decimal(n)|] == Decimal(n)
    ensures DecimalValue(r[..|Decimal(n)|]) == n
    ensures r[|Decimal(n)|..] == (if n == 1 then " line" else " lines")
  {
    DecimalRoundTrip(n);
    var r := Decimal(n) + " line" + (if n != 1 then "s" else "");
    assert r[..|Decimal(n)|] == Decimal(n);
    r
  }

  /** The line component's state: its `useState` hooks. */
  class PaymentsLineChart {
    const data: seq<Record>
    const fieldLabels: map<string, string>
    var windowWidth: int
    var currentPage: nat

    ghost predicate Valid()
      reads this
    {
      PageInRange(Device(), |data|, currentPage)
    }

    constructor (data: seq<Record>, fieldLabels: map<string, string>, initialWidth: int)
      ensures Valid()
      ensures this.data == data && this.fieldLabels == fieldLabels
      ensures windowWidth == initialWidth && currentPage == 0
    {
      this.data := data;
      this.fieldLabels := fieldLabels;
      windowWidth := initialWidth;
      currentPage := 0;
    }

    function Device(): Device
      reads this
    {
      Classify(windowWidth)
    }

    /** The records the current render draws: never empty when there are records. */
    function Visible(): (r: seq<Record>)
      reads this
      requires PageInRange(Device(), |data|, currentPage)
      ensures |data| > 0 ==> 0 < |r| <= ItemsPerPage(Device(), |data|)
      ensures |data| == 0 ==> r == []
    {
      if |data| == 0 then VisibleData(data, Device(), currentPage)
      else
        PageNonEmpty(data, Device(), currentPage);
        VisibleData(data, Device(), currentPage)
    }

    /** The lines the current render draws. */
    function Lines(): (r: seq<LineSeries>)
      reads this
      ensures |r| <= MaxSeries(Device())
    {
      LineConfigs(data, Device(), fieldLabels)
    }

    /** The resize handler: new width, and back to the first page. */
    method Resize(newWidth: int)
      requires Valid()
      modifies this
      ensures Valid()
      ensures windowWidth == newWidth && currentPage == 0
    {
      windowWidth := newWidth;
      currentPage := 0;
    }

    /** The Previous button, rendered only when there is more than one page. */
    method ClickPrevious()
      requires Valid() && ShowPagination(Device(), |data|)
      modifies this
      ensures Valid() && windowWidth == old(windowWidth)
      ensures currentPage == PrevPage(old(currentPage))
    {
      currentPage := PrevPage(currentPage);
    }

    /** The Next button, rendered only when there is more than one page. */
    method ClickNext()
      requires Valid() && ShowPagination(Device(), |data|)
      modifies this
      ensures Valid() && windowWidth == old(windowWidth)
      ensures currentPage == NextPage(old(currentPage), TotalPages(Device(), |data|))
    {
      currentPage := NextPage(currentPage, TotalPages(Device(), |data|));
    }
  }
}
