/**
 * The pie chart's data shaping: slices from the first numeric field, the
 * mobile roll-up of small slices into "Other", the per-device layout
 * choices, slice labels, and the component's own state (window width,
 * `chartKey`, hovered slice, notes modal).
 */
module PieChart {
  import opened Wrappers
  import opened Breakpoints
  import opened Records
  import Pagination
  import NotesModal

  /** One entry of the pie's data: `{ name, value, color }`. */
  datatype Slice = Slice(name: string, value: int, color: string)

  /** `pieColours`: twelve greens, cycled by record index. */
  const PieColours: seq<string> := [
    "#00dfb8", "#00573B", "#00C29D", "#007152", "#00A783", "#10d9c4",
    "#004d3d", "#00b894", "#006b5a", "#00f5d4", "#003d32", "#009688"
  ]

  /** `colours.mutedForeground`, the colour of the "Other" slice. */
  const MutedForeground: string := "#64748b"

  /** On mobile, more slices than this are rolled up. */
  const MobileSliceLimit: nat := 5

  /** The field the pie plots: the first numeric key of the first record. */
  function PieKey(data: seq<Record>): (k: Option<string>)
    ensures k.None? <==> |data| == 0 || |NumericKeys(data[0])| == 0
    ensures k.Some? ==> k.value == NumericKeys(data[0])[0] && k.value != "name"
    ensures k.Some? ==> NumberAt(data[0], k.value).Some?
  {
    if |data| == 0 || |NumericKeys(data[0])| == 0 then None
    else
      NumericFieldsSpec(data[0].fields);
      var key := NumericKeys(data[0])[0];
      assert key in NumericKeys(data[0]);
      var v :| (key, Number(v)) in data[0].fields;
      GetFinds(data[0].fields, key, Number(v));
      Some(key)
  }

  /** In a property list with distinct keys, Get finds the property that is there. */
  lemma {:induction false} GetFinds(fields: seq<(string, Value)>, key: string, v: Value)
    requires DistinctKeys(fields) && (key, v) in fields
    ensures Get(fields, key) == Some(v)
  {
    if fields[0] != (key, v) {
      assert (key, v) in fields[1..];
      GetFinds(fields[1..], key, v);
    }
  }

  /**
   * The caller's side of the schema: every record holds a number under the
   * pie's key (the records are assumed to share the first record's fields).
   */
  predicate PieReady(data: seq<Record>) {
    PieKey(data).Some? ==> forall i :: 0 <= i < |data| ==> NumberAt(data[i], PieKey(data).value).Some?
  }

  /** `data.map((item, index) => …)` from index `from` on. */
  function SlicesFrom(data: seq<Record>, key: string, from: nat): (r: seq<Slice>)
    requires forall i :: 0 <= i < |data| ==> NumberAt(data[i], key).Some?
    ensures |r| == if from < |data| then |data| - from else 0
    ensures forall i :: 0 <= i < |r| ==>
              r[i] == Slice(data[from + i].name, NumberAt(data[from + i], key).value, PieColours[(from + i) % 12])
    decreases |data| - from
  {
    if from >= |data| then []
    else [Slice(data[from].name, NumberAt(data[from], key).value, PieColours[from % 12])] + SlicesFrom(data, key, from + 1)
  }

  /**
   * `getPieData`: nothing when there are no records or the first has no
   * numeric field; otherwise one slice per record, in record order, valued
   * by the first numeric field and coloured by index.
   */
  function PieData(data: seq<Record>): (r: seq<Slice>)
    requires PieReady(data)
    ensures PieKey(data).None? ==> r == []
    ensures PieKey(data).Some? ==> |r| == |data|
    ensures PieKey(data).Some? ==> forall i :: 0 <= i < |r| ==>
              && r[i].name == data[i].name
              && Some(r[i].value) == NumberAt(data[i], PieKey(data).value)
              && r[i].color == PieColours[i % 12]
  {
    match PieKey(data)
    case None => []
    case Some(key) => SlicesFrom(data, key, 0)
  }

  /** `reduce((sum, item) => sum + item.value, 0)`. */
  function Sum(s: seq<Slice>): int {
    if |s| == 0 then 0 else s[0].value + Sum(s[1..])
  }

  lemma {:induction false} SumAppend(a: seq<Slice>, b: seq<Slice>)
    ensures Sum(a + b) == Sum(a) + Sum(b)
  {
    if |a| > 0 {
      assert (a + b)[0] == a[0] && (a + b)[1..] == a[1..] + b;
      SumAppend(a[1..], b);
    } else {
      assert a + b == b;
    }
  }

  /** Slices in non-increasing order of value. */
  predicate NonIncreasing(s: seq<Slice>) {
    forall i, j :: 0 <= i < j < |s| ==> s[i].value >= s[j].value
  }

  /** The slices of `s` whose value is `v`, in their order in `s`. */
  function WithValue(s: seq<Slice>, v: int): seq<Slice> {
    if |s| == 0 then []
    else if s[0].value == v then [s[0]] + WithValue(s[1..], v)
    else WithValue(s[1..], v)
  }

  /** Inserts `x` before the first slice whose value is not larger. */
  function InsertDesc(x: Slice, s: seq<Slice>): (r: seq<Slice>)
    ensures |r| == |s| + 1
  {
    if |s| == 0 then [x]
    else if s[0].value <= x.value then [x] + s
    else [s[0]] + InsertDesc(x, s[1..])
  }

  /**
   * `[...pieData].sort((a, b) => b.value - a.value)`: JavaScript's sort is
   * stable, so slices of equal value keep their order.
   */
  function SortDesc(s: seq<Slice>): (r: seq<Slice>)
    ensures |r| == |s|
  {
    if |s| == 0 then [] else InsertDesc(s[0], SortDesc(s[1..]))
  }

  lemma {:induction false} InsertDescPermutes(x: Slice, s: seq<Slice>)
    ensures multiset(InsertDesc(x, s)) == multiset(s) + multiset{x}
  {
    if |s| > 0 && s[0].value > x.value {
      InsertDescPermutes(x, s[1..]);
      assert s == [s[0]] + s[1..];
    }
  }

  lemma {:induction false} InsertDescSorted(x: Slice, s: seq<Slice>)
    requires NonIncreasing(s)
    ensures NonIncreasing(InsertDesc(x, s))
  {
    if |s| > 0 && s[0].value > x.value {
      var r := InsertDesc(x, s);
      var tail := InsertDesc(x, s[1..]);
      assert NonIncreasing(s[1..]);
      InsertDescSorted(x, s[1..]);
      InsertDescPermutes(x, s[1..]);
      assert r == [s[0]] + tail;
      forall j | 0 <= j < |tail| ensures tail[j].value <= s[0].value {
        assert tail[j] in multiset(tail);
        if tail[j] != x {
          assert tail[j] in multiset(s[1..]);
          var m :| 0 <= m < |s[1..]| && s[1..][m] == tail[j];
          assert s[m + 1] == tail[j];
        }
      }
      forall i, j | 0 <= i < j < |r| ensures r[i].value >= r[j].value {
        assert r[j] == tail[j - 1];
        if i > 0 { assert r[i] == tail[i - 1]; }
      }
    }
  }

  lemma {:induction false} InsertDescSum(x: Slice, s: seq<Slice>)
    ensures Sum(InsertDesc(x, s)) == x.value + Sum(s)
  {
    if |s| > 0 && s[0].value > x.value {
      InsertDescSum(x, s[1..]);
      assert InsertDesc(x, s)[1..] == InsertDesc(x, s[1..]);
    } else {
      assert InsertDesc(x, s)[1..] == s;
    }
  }

  lemma {:induction false} InsertDescWithValue(x: Slice, s: seq<Slice>, v: int)
    ensures WithValue(InsertDesc(x, s), v) == (if x.value == v then [x] else []) + WithValue(s, v)
  {
    var r := InsertDesc(x, s);
    if |s| > 0 && s[0].value > x.value {
      InsertDescWithValue(x, s[1..], v);
      assert r[0] == s[0] && r[1..] == InsertDesc(x, s[1..]);
    } else {
      assert r[0] == x && r[1..] == s;
    }
  }

  lemma {:induction false} SortDescPermutes(s: seq<Slice>)
    ensures multiset(SortDesc(s)) == multiset(s)
  {
    if |s| > 0 {
      SortDescPermutes(s[1..]);
      InsertDescPermutes(s[0], SortDesc(s[1..]));
      assert s == [s[0]] + s[1..];
    }
  }

  lemma {:induction false} SortDescSorted(s: seq<Slice>)
    ensures NonIncreasing(SortDesc(s))
  {
    if |s| > 0 {
      SortDescSorted(s[1..]);
      InsertDescSorted(s[0], SortDesc(s[1..]));
    }
  }

  lemma {:induction false} SortDescSum(s: seq<Slice>)
    ensures Sum(SortDesc(s)) == Sum(s)
  {
    if |s| > 0 {
      SortDescSum(s[1..]);
      InsertDescSum(s[0], SortDesc(s[1..]));
    }
  }

  /** Stability: for each value, the sort keeps the slices of that value in input order. */
  lemma {:induction false} SortDescStable(s: seq<Slice>, v: int)
    ensures WithValue(SortDesc(s), v) == WithValue(s, v)
  {
    if |s| > 0 {
      SortDescStable(s[1..], v);
      InsertDescWithValue(s[0], SortDesc(s[1..]), v);
    }
  }

  /** Slices already in non-increasing order come out of the sort unchanged. */
  lemma {:induction false} SortDescKeepsSorted(s: seq<Slice>)
    requires NonIncreasing(s)
    ensures SortDesc(s) == s
  {
    if |s| > 0 {
      SortDescKeepsSorted(s[1..]);
      assert s == [s[0]] + s[1..];
    }
  }

  /**
   * `getMobileOptimisedData`: at most five slices are kept as they are;
   * beyond that the four largest (by a stable descending sort) are kept and
   * the rest become one muted "Other" slice worth their sum, so the total
   * does not change.
   */
  function MobileOptimised(pie: seq<Slice>): (r: seq<Slice>)
    ensures |pie| <= MobileSliceLimit ==> r == pie
    ensures |pie| > MobileSliceLimit ==> |r| == 5 && r[..4] == SortDesc(pie)[..4]
    ensures |pie| > MobileSliceLimit ==> r[4] == Slice("Other", Sum(SortDesc(pie)[4..]), MutedForeground)
    ensures Sum(r) == Sum(pie)
  {
    if |pie| <= MobileSliceLimit then pie
    else
      var sorted := SortDesc(pie);
      var r := sorted[..4] + [Slice("Other", Sum(sorted[4..]), MutedForeground)];
      SortDescSum(pie);
      SumAppend(sorted[..4], [Slice("Other", Sum(sorted[4..]), MutedForeground)]);
      SumAppend(sorted[..4], sorted[4..]);
      assert sorted[..4] + sorted[4..] == sorted;
      r
  }

  /** In a non-increasing sequence nothing after index 3 is larger than the entry at 3. */
  lemma TailNoLarger(sorted: seq<Slice>)
    requires |sorted| > 4 && NonIncreasing(sorted)
    ensures forall x :: x in multiset(sorted[4..]) ==> x.value <= sorted[3].value
  {
    forall x | x in multiset(sorted[4..]) ensures x.value <= sorted[3].value {
      var j :| 0 <= j < |sorted[4..]| && sorted[4..][j] == x;
      assert sorted[j + 4] == x;
    }
  }

  /**
   * With more than five slices, the mobile view keeps four slices of the
   * input in non-increasing order, every slice it rolls up is no larger than
   * the fourth kept one, and "Other" is worth exactly the slices not kept.
   */
  lemma MobileTopFour(pie: seq<Slice>)
    requires |pie| > MobileSliceLimit
    ensures NonIncreasing(MobileOptimised(pie)[..4])
    ensures multiset(MobileOptimised(pie)[..4]) <= multiset(pie)
    ensures forall x :: x in multiset(pie) - multiset(MobileOptimised(pie)[..4]) ==> x.value <= MobileOptimised(pie)[3].value
  {
    var r := MobileOptimised(pie);
    var sorted := SortDesc(pie);
    SortDescPermutes(pie);
    SortDescSorted(pie);
    var top, rest := sorted[..4], sorted[4..];
    assert r[..4] == top && r[3] == sorted[3];
    assert sorted == top + rest;
    assert multiset(pie) == multiset(top) + multiset(rest);
    assert multiset(pie) - multiset(top) == multiset(rest);
    TailNoLarger(sorted);
  }

  /** "Other" is worth exactly what the four kept slices leave of the total. */
  lemma MobileOtherValue(pie: seq<Slice>)
    requires |pie| > MobileSliceLimit
    ensures MobileOptimised(pie)[4].value == Sum(pie) - Sum(MobileOptimised(pie)[..4])
  {
    var r, sorted := MobileOptimised(pie), SortDesc(pie);
    var top, rest := sorted[..4], sorted[4..];
    assert r[..4] == top && r[4].value == Sum(rest);
    SortDescSum(pie);
    assert sorted == top + rest;
    SumAppend(top, rest);
  }

  /** The slices of value `v` in a prefix are a prefix of those in the whole. */
  lemma {:induction false} WithValuePrefix(s: seq<Slice>, m: nat, v: int)
    requires m <= |s|
    ensures WithValue(s[..m], v) <= WithValue(s, v)
  {
    if m > 0 {
      assert s[..m][0] == s[0] && s[..m][1..] == s[1..][..m - 1];
      WithValuePrefix(s[1..], m - 1, v);
    }
  }

  /**
   * Ties for the kept places go to the earlier records: for every value,
   * the kept slices of that value are the first ones of that value in
   * record order.
   */
  lemma MobileKeepsTieOrder(pie: seq<Slice>, v: int)
    requires |pie| > MobileSliceLimit
    ensures WithValue(MobileOptimised(pie)[..4], v) <= WithValue(pie, v)
  {
    SortDescStable(pie, v);
    WithValuePrefix(SortDesc(pie), 4, v);
  }

  /** The props of `PaymentsPieChart` that shape the layout. */
  datatype PieProps = PieProps(height: int, showInnerRadius: bool, showLabels: bool, showLegend: bool)

  /** The layout-relevant part of `getResponsiveConfig`'s result. */
  datatype PieConfig = PieConfig(
    height: int, outerRadius: int, innerRadius: int, paddingAngle: int,
    showLabels: bool, showLegend: bool, slices: seq<Slice>, totalValue: int)

  /**
   * `getResponsiveConfig`: on mobile, labels are off, the legend is on and
   * the slices are rolled up; on tablet and desktop labels follow
   * `showLabels` and the legend shows only when labels do not. The slices
   * drawn always add up to the total of the pie data.
   */
  function ResponsiveConfig(d: Device, props: PieProps, data: seq<Record>): (c: PieConfig)
    requires PieReady(data)
    ensures c.totalValue == Sum(PieData(data)) == Sum(c.slices)
    ensures d == Mobile ==> !c.showLabels && c.showLegend && c.slices == MobileOptimised(PieData(data))
    ensures d != Mobile ==> c.showLabels == props.showLabels && c.slices == PieData(data)
    ensures d != Mobile ==> c.showLegend == (props.showLegend && !props.showLabels)
    ensures !(c.showLabels && c.showLegend)
    ensures 0 <= c.innerRadius < c.outerRadius
    ensures c.height >= 450 && (d != Mobile ==> c.height >= props.height)
  {
    var base := PieData(data);
    var total := Sum(base);
    match d
    case Mobile => PieConfig(700, 170, 0, 2, false, true, MobileOptimised(base), total)
    case Tablet =>
      PieConfig(Pagination.Max(props.height, 600), 170, if props.showInnerRadius then 40 else 0, 1,
                props.showLabels, props.showLegend && !props.showLabels, base, total)
    case Desktop =>
      PieConfig(Pagination.Max(props.height, 450), 150, if props.showInnerRadius then 80 else 0, 1,
                props.showLabels, props.showLegend && !props.showLabels, base, total)
  }

  /** `maxNameLength`: 10, 12 or 15 characters of a slice's name. */
  function MaxNameLength(d: Device): nat {
    match d
    case Mobile => 10
    case Tablet => 12
    case Desktop => 15
  }

  /** A name longer than the device's limit is cut to the limit and ends in "...". */
  function DisplayName(d: Device, name: string): (r: string)
    ensures |name| <= MaxNameLength(d) ==> r == name
    ensures |name| > MaxNameLength(d) ==>
              |r| == MaxNameLength(d) + 3 && r[..MaxNameLength(d)] == name[..MaxNameLength(d)] && r[MaxNameLength(d)..] == "..."
  {
    var limit := MaxNameLength(d);
    if |name| > limit then name[..limit] + "..." else name
  }

  /**
   * `renderDesktopCustomLabel`'s text: no label for a slice under 3% of the
   * total (`percent < 0.03`, stated on integers), otherwise the display name.
   */
  function SliceLabel(d: Device, name: string, value: int, total: int): (r: Option<string>)
    requires total > 0
    ensures r.None? <==> 100 * value < 3 * total
    ensures r.Some? ==> r.value == DisplayName(d, name) && |r.value| <= MaxNameLength(d) + 3
  {
    if 100 * value < 3 * total then None else Some(DisplayName(d, name))
  }

  /** The pie component's state: its `useState` hooks and the notes modal. */
  class PaymentsPieChart {
    const data: seq<Record>
    const props: PieProps
    const notes: NotesModal.Notes
    var windowWidth: int
    var chartKey: nat
    var hoveredIndex: Option<nat>

    ghost predicate Valid()
      reads this, notes
    {
      notes.Valid() && PieReady(data)
    }

    constructor (data: seq<Record>, props: PieProps, notesDescription: string, initialWidth: int)
      requires PieReady(data)
      ensures Valid() && fresh(notes) && notes.mounted && !notes.open
      ensures this.data == data && this.props == props && notes.description == notesDescription
      ensures windowWidth == initialWidth && chartKey == 0 && hoveredIndex == None
    {
      this.data := data;
      this.props := props;
      windowWidth := initialWidth;
      chartKey := 0;
      hoveredIndex := None;
      notes := new NotesModal.Notes(notesDescription);
    }

    function Device(): Device
      reads this
    {
      Classify(windowWidth)
    }

    /** The configuration the current render uses. */
    function Config(): (c: PieConfig)
      reads this
      requires PieReady(data)
      ensures Sum(c.slices) == c.totalValue
    {
      ResponsiveConfig(Device(), props, data)
    }

    /**
     * The (debounced) resize handler: records the new width, and bumps
     * `chartKey` by one exactly when the breakpoint changes, which remounts
     * the chart.
     */
    method Resize(newWidth: int)
      requires Valid()
      modifies this
      ensures Valid()
      ensures windowWidth == newWidth && hoveredIndex == old(hoveredIndex)
      ensures Device() == old(Device()) ==> chartKey == old(chartKey)
      ensures Device() != old(Device()) ==> chartKey == old(chartKey) + 1
    {
      var previous := Classify(windowWidth);
      var current := Classify(newWidth);
      windowWidth := newWidth;
      if previous != current {
        chartKey := chartKey + 1;
      }
    }

    /** `onMouseEnter` on slice `index` of the drawn data. */
    method HoverSlice(index: nat)
      requires Valid() && index < |Config().slices|
      modifies this
      ensures Valid() && hoveredIndex == Some(index)
      ensures windowWidth == old(windowWidth) && chartKey == old(chartKey)
    {
      hoveredIndex := Some(index);
    }

    /** `onMouseLeave`: no slice is highlighted. */
    method LeaveSlice()
      requires Valid()
      modifies this
      ensures Valid() && hoveredIndex == None
      ensures windowWidth == old(windowWidth) && chartKey == old(chartKey)
    {
      hoveredIndex := None;
    }

    /** Unmounting releases the page scroll lock whatever the modal's state. */
    method Unmount()
      requires Valid()
      modifies notes
      ensures Valid() && !notes.mounted && !notes.bodyScrollLocked
    {
      notes.Unmount();
    }
  }
}
