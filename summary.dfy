/** The summary aggregator (`updateSummary`): hours and earnings of the
    records dated today, in the current month and in the current year. */
module Summary {
  import opened Records

  datatype Window = Daily | Monthly | Yearly

  /** Whether a record dated `d` falls in window `w` anchored at `today`; the
      three windows are tested independently of one another. */
  predicate InWindow(w: Window, d: Date, today: Date) {
    match w
    case Daily => d == today
    case Monthly => d.month == today.month && d.year == today.year
    case Yearly => d.year == today.year
  }

  /** `w1` is a window no wider than `w2`. */
  predicate Narrower(w1: Window, w2: Window) {
    w1 == w2 || w1 == Daily || w2 == Yearly
  }

  /** A record counted in a window is counted in every wider window. */
  lemma WindowNesting(w1: Window, w2: Window, d: Date, today: Date)
    requires Narrower(w1, w2) && InWindow(w1, d, today)
    ensures InWindow(w2, d, today)
  {
  }

  datatype Measure = Hours | Pay

  function Amount(r: OTRecord, m: Measure): real {
    match m
    case Hours => r.duration
    case Pay => r.earnings
  }

  /** What record `r` adds to the total of window `w`. */
  function Counted(r: OTRecord, w: Window, today: Date, m: Measure): real {
    if InWindow(w, r.date, today) then Amount(r, m) else 0.0
  }

  /** The sum of measure `m` over the records in window `w`, taken in list
      order as the summary loop does. */
  function Total(rs: seq<OTRecord>, w: Window, today: Date, m: Measure): real
    decreases |rs|
  {
    if rs == [] then 0.0
    else Total(rs[..|rs| - 1], w, today, m) + Counted(rs[|rs| - 1], w, today, m)
  }

  /** Totals split over a concatenation. */
  lemma {:induction false} TotalAppend(a: seq<OTRecord>, b: seq<OTRecord>, w: Window, today: Date, m: Measure)
    ensures Total(a + b, w, today, m) == Total(a, w, today, m) + Total(b, w, today, m)
    decreases |b|
  {
    if b == [] {
      assert a + b == a;
    } else {
      var b' := b[..|b| - 1];
      assert (a + b)[..|a + b| - 1] == a + b';
      TotalAppend(a, b', w, today, m);
    }
  }

  /** Adding a record at the head changes a window's total by exactly that
      record's share. */
  lemma TotalAfterPrepend(r: OTRecord, rs: seq<OTRecord>, w: Window, today: Date, m: Measure)
    ensures Total([r] + rs, w, today, m) == Counted(r, w, today, m) + Total(rs, w, today, m)
  {
    TotalAppend([r], rs, w, today, m);
    assert [r][..0] == [];
  }

  /** Deleting a record changes a window's total by exactly that record's
      share, and a deletion past the end changes nothing. */
  lemma TotalAfterRemove(rs: seq<OTRecord>, i: nat, w: Window, today: Date, m: Measure)
    ensures i < |rs| ==>
              Total(RemoveAt(rs, i), w, today, m) == Total(rs, w, today, m) - Counted(rs[i], w, today, m)
    ensures i >= |rs| ==> Total(RemoveAt(rs, i), w, today, m) == Total(rs, w, today, m)
  {
    if i < |rs| {
      assert rs == rs[..i] + ([rs[i]] + rs[i + 1..]);
      TotalAppend(rs[..i], [rs[i]] + rs[i + 1..], w, today, m);
      TotalAfterPrepend(rs[i], rs[i + 1..], w, today, m);
      TotalAppend(rs[..i], rs[i + 1..], w, today, m);
    }
  }

  /** With no negative amounts, a narrower window never totals more than a
      wider one: daily <= monthly <= yearly, and every total is >= 0. */
  lemma {:induction false} TotalMonotone(rs: seq<OTRecord>, w1: Window, w2: Window, today: Date, m: Measure)
    requires Narrower(w1, w2)
    requires forall i :: 0 <= i < |rs| ==> Amount(rs[i], m) >= 0.0
    ensures 0.0 <= Total(rs, w1, today, m) <= Total(rs, w2, today, m)
    decreases |rs|
  {
    if rs != [] {
      var last := rs[|rs| - 1];
      TotalMonotone(rs[..|rs| - 1], w1, w2, today, m);
      if InWindow(w1, last.date, today) {
        WindowNesting(w1, w2, last.date, today);
      }
    }
  }

  /** The six figures the summary panel shows. */
  datatype Totals = Totals(
    dailyHours: real, dailyEarnings: real,
    monthlyHours: real, monthlyEarnings: real,
    yearlyHours: real, yearlyEarnings: real)

  /** The summary the panel should show for `rs` on `today`. */
  function SummaryOf(rs: seq<OTRecord>, today: Date): Totals {
    Totals(
      Total(rs, Daily, today, Hours), Total(rs, Daily, today, Pay),
      Total(rs, Monthly, today, Hours), Total(rs, Monthly, today, Pay),
      Total(rs, Yearly, today, Hours), Total(rs, Yearly, today, Pay))
  }

  /** The summary loop: one pass over the records with six accumulators, each
      window tested on its own. */
  method Summarize(records: seq<OTRecord>, today: Date) returns (s: Totals)
    ensures s == SummaryOf(records, today)
  {
    var dailyHours, dailyEarnings := 0.0, 0.0;
    var monthlyHours, monthlyEarnings := 0.0, 0.0;
    var yearlyHours, yearlyEarnings := 0.0, 0.0;
    var i := 0;
    while i < |records|
      invariant 0 <= i <= |records|
      invariant dailyHours == Total(records[..i], Daily, today, Hours)
      invariant dailyEarnings == Total(records[..i], Daily, today, Pay)
      invariant monthlyHours == Total(records[..i], Monthly, today, Hours)
      invariant monthlyEarnings == Total(records[..i], Monthly, today, Pay)
      invariant yearlyHours == Total(records[..i], Yearly, today, Hours)
      invariant yearlyEarnings == Total(records[..i], Yearly, today, Pay)
    {
      var record := records[i];
      assert records[..i + 1][..i] == records[..i];
      if record.date == today {
        dailyHours := dailyHours + record.duration;
        dailyEarnings := dailyEarnings + record.earnings;
      }
      if record.date.month == today.month && record.date.year == today.year {
        monthlyHours := monthlyHours + record.duration;
        monthlyEarnings := monthlyEarnings + record.earnings;
      }
      if record.date.year == today.year {
        yearlyHours := yearlyHours + record.duration;
        yearlyEarnings := yearlyEarnings + record.earnings;
      }
      i := i + 1;
    }
    assert records[..i] == records;
    s := Totals(dailyHours, dailyEarnings, monthlyHours, monthlyEarnings, yearlyHours, yearlyEarnings);
  }

  /** For consistent records the panel's figures are ordered day <= month <=
      year, in hours and in earnings. */
  lemma SummaryOrdered(rs: seq<OTRecord>, today: Date)
    requires forall i :: 0 <= i < |rs| ==> Consistent(rs[i])
    ensures var s := SummaryOf(rs, today);
      && 0.0 <= s.dailyHours <= s.monthlyHours <= s.yearlyHours
      && 0.0 <= s.dailyEarnings <= s.monthlyEarnings <= s.yearlyEarnings
  {
    assert forall i :: 0 <= i < |rs| ==> Amount(rs[i], Hours) >= 0.0;
    assert forall i :: 0 <= i < |rs| ==> Amount(rs[i], Pay) >= 0.0;
    TotalMonotone(rs, Daily, Monthly, today, Hours);
    TotalMonotone(rs, Monthly, Yearly, today, Hours);
    TotalMonotone(rs, Daily, Monthly, today, Pay);
    TotalMonotone(rs, Monthly, Yearly, today, Pay);
  }

  /** Three records dated today, earlier this month and last year: the daily
      figures count only the first, the monthly and yearly ones the first two. */
  lemma ThreeWindowsExample(a: OTRecord, b: OTRecord, c: OTRecord, today: Date)
    requires a.date == today
    requires b.date.year == today.year && b.date.month == today.month && b.date.day != today.day
    requires c.date.year == today.year - 1
    ensures var s := SummaryOf([a, b, c], today);
      && s.dailyHours == a.duration && s.dailyEarnings == a.earnings
      && s.monthlyHours == a.duration + b.duration && s.monthlyEarnings == a.earnings + b.earnings
      && s.yearlyHours == a.duration + b.duration && s.yearlyEarnings == a.earnings + b.earnings
  {
    forall w: Window, m: Measure
      ensures Total([a, b, c], w, today, m) == Counted(a, w, today, m) + Counted(b, w, today, m) + Counted(c, w, today, m)
    {
      assert [a][..0] == [];
      assert Total([a], w, today, m) == Counted(a, w, today, m);
      assert [a, b][..1] == [a];
      assert Total([a, b], w, today, m) == Total([a], w, today, m) + Counted(b, w, today, m);
      assert [a, b, c][..2] == [a, b];
    }
  }
}
