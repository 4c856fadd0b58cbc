/**
 * The bar chart's data shaping: which known series it draws, with their
 * fixed colours and device-dependent names, and the component's state
 * (window width, current page, notes modal).
 */
module BarChart {
  import opened Breakpoints
  import opened Records
  import opened Pagination
  import NotesModal

  /** One `<Bar>`: the field it plots, its legend name and its fill. */
  datatype BarSeries = BarSeries(key: string, name: string, color: string)

  /** An entry of the fixed priority list, with its mobile and its full name. */
  datatype KnownBar = KnownBar(key: string, shortName: string, longName: string, color: string)

  /** The known series, in priority order: volume, value, count, users, revenue. */
  const KnownBars: seq<KnownBar> := [
    KnownBar("volume", "Volume", "Transaction volume", "#00dfb8"),
    KnownBar("value", "Value (£m)", "Transaction value (£m)", "#00573B"),
    KnownBar("count", "Count", "Transaction count", "#00C29D"),
    KnownBar("users", "Users", "Active users", "#007152"),
    KnownBar("revenue", "Revenue", "Revenue (£m)", "#00A783")
  ]

  /** The `barConfigs` list for a device: the short name on mobile, the full name otherwise. */
  function Candidates(d: Device): (cs: seq<BarSeries>)
    ensures |cs| == |KnownBars|
    ensures forall j :: 0 <= j < |cs| ==>
              && cs[j].key == KnownBars[j].key
              && cs[j].color == KnownBars[j].color
              && cs[j].name == (if d == Mobile then KnownBars[j].shortName else KnownBars[j].longName)
  {
    seq(|KnownBars|, j requires 0 <= j < |KnownBars| =>
      BarSeries(KnownBars[j].key, if d == Mobile then KnownBars[j].shortName else KnownBars[j].longName, KnownBars[j].color))
  }

  /** `barConfigs.filter(config => dataKeys.includes(config.key))`. */
  function KeepPresent(cs: seq<BarSeries>, keys: seq<string>): (r: seq<BarSeries>)
    ensures |r| <= |cs|
    ensures forall c :: c in r <==> c in cs && c.key in keys
    ensures IsSubsequence(r, cs)
  {
    if |cs| == 0 then []
    else if cs[0].key in keys then
      var rest := KeepPresent(cs[1..], keys);
      assert ([cs[0]] + rest)[1..] == rest;
      [cs[0]] + rest
    else
      var rest := KeepPresent(cs[1..], keys);
      SubsequenceSkip(rest, cs[0], cs[1..]);
      assert [cs[0]] + cs[1..] == cs;
      rest
  }

  /** A prefix of a subsequence is a subsequence. */
  lemma {:induction false} SubsequencePrefix<T>(a: seq<T>, b: seq<T>, m: nat)
    requires m <= |a| && IsSubsequence(a, b)
    ensures IsSubsequence(a[..m], b)
    decreases |b|
  {
    if m > 0 {
      if a[0] == b[0] {
        assert a[..m][1..] == a[1..][..m - 1];
        SubsequencePrefix(a[1..], b[1..], m - 1);
      } else {
        SubsequencePrefix(a, b[1..], m);
      }
    }
  }

  /**
   * `getBarConfigs`: nothing for no records; otherwise the known series
   * whose key is a numeric field of the first record, in priority order,
   * at most 2, 3 or 5 of them. A known numeric field is dropped only when
   * the cap is already reached.
   */
  function BarConfigs(data: seq<Record>, d: Device): (r: seq<BarSeries>)
    ensures |data| == 0 ==> r == []
    ensures |r| <= MaxSeries(d)
    ensures IsSubsequence(r, Candidates(d))
    ensures |data| > 0 ==> forall c :: c in r ==> c.key in NumericKeys(data[0])
    ensures |data| > 0 ==> forall c :: c in Candidates(d) && c.key in NumericKeys(data[0]) && c !in r ==> |r| == MaxSeries(d)
  {
    if |data| == 0 then []
    else
      var present := KeepPresent(Candidates(d), NumericKeys(data[0]));
      var m := Min(|present|, MaxSeries(d));
      SubsequencePrefix(present, Candidates(d), m);
      present[..m]
  }

  /**
   * Every drawn series is one of the five known ones, keeps that entry's
   * fixed colour, and is named by the short name exactly on mobile.
   */
  lemma BarSeriesStyle(data: seq<Record>, d: Device, i: nat)
    requires i < |BarConfigs(data, d)|
    ensures exists j :: 0 <= j < |KnownBars| &&
              var c := BarConfigs(data, d)[i];
              && c.key == KnownBars[j].key
              && c.color == KnownBars[j].color
              && c.name == (if d == Mobile then KnownBars[j].shortName else KnownBars[j].longName)
  {
    var c := BarConfigs(data, d)[i];
    assert c in BarConfigs(data, d);
    var present := KeepPresent(Candidates(d), NumericKeys(data[0]));
    assert c in present;
    var j :| 0 <= j < |Candidates(d)| && Candidates(d)[j] == c;
  }

  lemma {:induction false} KeepPresentAppend(a: seq<BarSeries>, b: seq<BarSeries>, keys: seq<string>)
    ensures KeepPresent(a + b, keys) == KeepPresent(a, keys) + KeepPresent(b, keys)
  {
    if |a| == 0 {
      assert a + b == b;
    } else {
      assert (a + b)[0] == a[0] && (a + b)[1..] == a[1..] + b;
      KeepPresentAppend(a[1..], b, keys);
    }
  }

  /**
   * If the first `m` kept entries leave out a present entry `cs[j]`, they
   * all come from before index `j`.
   */
  lemma KeptBefore(cs: seq<BarSeries>, keys: seq<string>, m: nat, j: nat)
    requires j < |cs| && cs[j].key in keys
    requires m <= |KeepPresent(cs, keys)|
    requires cs[j] !in KeepPresent(cs, keys)[..m]
    ensures forall c :: c in KeepPresent(cs, keys)[..m] ==> c in cs[..j]
  {
    var present := KeepPresent(cs, keys);
    var before := KeepPresent(cs[..j], keys);
    assert cs == cs[..j] + cs[j..];
    KeepPresentAppend(cs[..j], cs[j..], keys);
    assert cs[j..] == [cs[j]] + cs[j + 1..];
    KeepPresentAppend([cs[j]], cs[j + 1..], keys);
    assert present == before + [cs[j]] + KeepPresent(cs[j + 1..], keys);
    assert present[|before|] == cs[j];
    assert forall i :: 0 <= i < m ==> present[..m][i] != cs[j];
    assert m <= |before|;
    assert present[..m] == before[..m];
    forall c | c in before[..m] ensures c in cs[..j] {
      assert c in before;
    }
  }

  /**
   * Priority: when a known numeric field is left out, every series that is
   * drawn comes earlier in the priority list.
   */
  lemma BarPriority(data: seq<Record>, d: Device, j: nat)
    requires |data| > 0 && j < |KnownBars|
    requires KnownBars[j].key in NumericKeys(data[0])
    requires Candidates(d)[j] !in BarConfigs(data, d)
    ensures forall c :: c in BarConfigs(data, d) ==> exists j' :: 0 <= j' < j && Candidates(d)[j'] == c
  {
    var cs := Candidates(d);
    var keys := NumericKeys(data[0]);
    var r := BarConfigs(data, d);
    assert r == KeepPresent(cs, keys)[..|r|];
    KeptBefore(cs, keys, |r|, j);
    forall c | c in r ensures exists j' :: 0 <= j' < j && cs[j'] == c {
      var j' :| 0 <= j' < j && cs[..j][j'] == c;
      assert cs[j'] == c;
    }
  }

  /** The bar component's state: its `useState` hooks and the notes modal. */
  class PaymentsBarChart {
    const data: seq<Record>
    const notes: NotesModal.Notes
    var windowWidth: int
    var currentPage: nat

    ghost predicate Valid()
      reads this, notes
    {
      notes.Valid() && PageInRange(Device(), |data|, currentPage)
    }

    constructor (data: seq<Record>, notesDescription: string, initialWidth: int)
      ensures Valid() && fresh(notes) && notes.mounted && !notes.open
      ensures this.data == data && notes.description == notesDescription
      ensures windowWidth == initialWidth && currentPage == 0
    {
      this.data := data;
      windowWidth := initialWidth;
      currentPage := 0;
      notes := new NotesModal.Notes(notesDescription);
    }

    function Device(): Device
      reads this
    {
      Classify(windowWidth)
    }

    /** The records the current render draws: never empty when there are records. */
    function Visible(): (r: seq<Record>)
      reads this
      requires PageInRange(Device(), |data|, currentPage)
      ensures |data| > 0 ==> 0 < |r| <= ItemsPerPage(Device(), |data|)
      ensures |data| == 0 ==> r == []
    {
      if |data| == 0 then VisibleData(data, Device(), currentPage)
      else
        PageNonEmpty(data, Device(), currentPage);
        VisibleData(data, Device(), currentPage)
    }

    /** The series the current render draws. */
    function Series(): (r: seq<BarSeries>)
      reads this
      ensures |r| <= MaxSeries(Device())
    {
      BarConfigs(data, Device())
    }

    /** The resize handler: new width, and back to the first page. */
    method Resize(newWidth: int)
      requires Valid()
      modifies this
      ensures Valid()
      ensures windowWidth == newWidth && currentPage == 0
    {
      windowWidth := newWidth;
      currentPage := 0;
    }

    /** The Previous button, rendered only when there is more than one page. */
    method ClickPrevious()
      requires Valid() && ShowPagination(Device(), |data|)
      modifies this
      ensures Valid() && windowWidth == old(windowWidth)
      ensures currentPage == PrevPage(old(currentPage))
    {
      currentPage := PrevPage(currentPage);
    }

    /** The Next button, rendered only when there is more than one page. */
    method ClickNext()
      requires Valid() && ShowPagination(Device(), |data|)
      modifies this
      ensures Valid() && windowWidth == old(windowWidth)
      ensures currentPage == NextPage(old(currentPage), TotalPages(Device(), |data|))
    {
      currentPage := NextPage(currentPage, TotalPages(Device(), |data|));
    }

    /** Unmounting releases the page scroll lock whatever the modal's state. */
    method Unmount()
      requires Valid()
      modifies notes
      ensures Valid() && !notes.mounted && !notes.bodyScrollLocked
    {
      notes.Unmount();
    }
  }
}
