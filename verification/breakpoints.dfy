/**
 * The breakpoint resolver shared by the three chart components: a viewport
 * width in pixels maps to one of three device classes.
 */
module Breakpoints {

  datatype Device = Mobile | Tablet | Desktop

  /** `isMobile` as each component computes it. */
  predicate IsMobile(width: int) {
    width < 768
  }

  /** `isTablet` as each component computes it. */
  predicate IsTablet(width: int) {
    width >= 768 && width < 1024
  }

  /**
   * The nested conditional the pie chart's resize handler uses to name the
   * breakpoint; it agrees with the `isMobile`/`isTablet` flags everywhere.
   */
  function Classify(width: int): (d: Device)
    ensures d == Mobile <==> IsMobile(width)
    ensures d == Tablet <==> IsTablet(width)
    ensures d == Desktop <==> !IsMobile(width) && !IsTablet(width)
  {
    if width < 768 then Mobile else if width < 1024 then Tablet else Desktop
  }

  /** Position of a device class in the order mobile < tablet < desktop. */
  function Rank(d: Device): nat {
    match d
    case Mobile => 0
    case Tablet => 1
    case Desktop => 2
  }

  /** A wider viewport never gets a smaller device class. */
  lemma ClassifyMonotone(w1: int, w2: int)
    requires w1 <= w2
    ensures Rank(Classify(w1)) <= Rank(Classify(w2))
  {
  }

  /** The series cap the bar and line charts apply: 2, 3 or 5 series. */
  function MaxSeries(d: Device): (m: nat)
    ensures 2 <= m <= 5
    ensures Rank(d) < 2 ==> m == 2 + Rank(d)
    ensures d == Desktop ==> m == 5
  {
    match d
    case Mobile => 2
    case Tablet => 3
    case Desktop => 5
  }
}
