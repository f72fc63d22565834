/**
 * Chart series for one machine, as `get_chart_data_for_machine` (the 7-day
 * window) and `api_series` (all days) build them from the long table: bars
 * for the daily values ("Dzienne") of shifts A, B, C, then lines for the
 * cumulative values ("Narastające") of shifts A, B, C, each sorted by day
 * and left out when empty.
 */
module Series {
  import opened Reshaper
  import opened Sorting

  /** A bar series for daily values, or a line series for cumulative ones. */
  datatype Kind = Bar | Line

  /** The day filter: every day, or `first..last` inclusive. */
  datatype Window = AllDays | Days(first: int, last: int)

  /** One (x, y) pair of a series: a day and its value. */
  datatype Point = Point(day: int, value: int)

  /** One chart series; the JSON's `x` and `y` lists are `X()` and `Y()`. */
  datatype Series = Series(kind: Kind, shift: string, points: seq<Point>) {
    function Name(): string {
      if kind == Bar then shift else "Narastająco " + shift
    }

    function Color(): string {
      if kind == Bar then
        (if shift == "A" then "#0ea5e9" else if shift == "B" then "#FF6B35"
         else if shift == "C" then "#6b7280" else "#999999")
      else
        (if shift == "A" then "#0284c7" else if shift == "B" then "#f97316"
         else if shift == "C" then "#4b5563" else "#666666")
    }

    function X(): (xs: seq<int>)
      ensures |xs| == |points| && forall i :: 0 <= i < |points| ==> xs[i] == points[i].day
    {
      seq(|points|, i requires 0 <= i < |points| => points[i].day)
    }

    function Y(): (ys: seq<int>)
      ensures |ys| == |points| && forall i :: 0 <= i < |points| ==> ys[i] == points[i].value
    {
      seq(|points|, i requires 0 <= i < |points| => points[i].value)
    }
  }

  /** The six traces of a machine are told apart by name and by colour. */
  lemma TraceStylesDistinct(k1: Kind, sh1: string, k2: Kind, sh2: string)
    requires sh1 in Shifts && sh2 in Shifts && (k1 != k2 || sh1 != sh2)
    ensures Series(k1, sh1, []).Name() != Series(k2, sh2, []).Name()
    ensures Series(k1, sh1, []).Color() != Series(k2, sh2, []).Color()
  {
    var n1, n2 := Series(k1, sh1, []).Name(), Series(k2, sh2, []).Name();
    if k1 == Bar && k2 == Line {
      assert |n1| < |n2|;
    } else if k1 == Line && k2 == Bar {
      assert |n2| < |n1|;
    } else if k1 == Line {
      assert n1[|n1| - 1] == sh1[0] && n2[|n2| - 1] == sh2[0];
    }
  }

  /** The body of the `/api/series` reply. */
  datatype SeriesResponse = SeriesResponse(series: seq<Series>, kod: string, nazwa: string)

  const Shifts: seq<string> := ["A", "B", "C"]

  /** The record type a series kind reads. */
  function TypOf(k: Kind): string {
    if k == Bar then "Dzienne" else "Narastające"
  }

  predicate InWindow(day: int, w: Window) {
    w.AllDays? || w.first <= day <= w.last
  }

  /** The mask of one series: machine, record type, shift and day window. */
  predicate Matches(r: LongRecord, kod: string, k: Kind, shift: string, w: Window) {
    r.typ == TypOf(k) && r.kod == kod && r.brygada == shift && InWindow(r.dzien, w)
  }

  function PointOf(r: LongRecord): Point {
    Point(r.dzien, r.wartosc)
  }

  /** The (day, value) pairs of the records the mask selects, in table order. */
  function Selected(records: seq<LongRecord>, kod: string, k: Kind, shift: string, w: Window): (ps: seq<Point>)
    ensures |ps| <= |records|
    decreases |records|
  {
    if records == [] then []
    else
      var n := |records| - 1;
      Selected(records[..n], kod, k, shift, w)
      + (if Matches(records[n], kod, k, shift, w) then [PointOf(records[n])] else [])
  }

  /** The selection holds the point of every record the mask accepts, and nothing else. */
  lemma {:induction false} SelectedMembers(records: seq<LongRecord>, kod: string, k: Kind, shift: string, w: Window)
    ensures forall p :: p in Selected(records, kod, k, shift, w) ==>
              exists r :: r in records && Matches(r, kod, k, shift, w) && p == PointOf(r)
    ensures forall r :: r in records && Matches(r, kod, k, shift, w) ==> PointOf(r) in Selected(records, kod, k, shift, w)
    decreases |records|
  {
    if records != [] {
      var n := |records| - 1;
      SelectedMembers(records[..n], kod, k, shift, w);
      assert records == records[..n] + [records[n]];
    }
  }

  /**
   * The selection of two tables in a row is the selection of each, in a row:
   * one point for every matching record, duplicates included, in table order.
   */
  lemma {:induction false} SelectedOfConcat(a: seq<LongRecord>, b: seq<LongRecord>, kod: string, k: Kind, shift: string, w: Window)
    ensures Selected(a + b, kod, k, shift, w) == Selected(a, kod, k, shift, w) + Selected(b, kod, k, shift, w)
    decreases |b|
  {
    if b == [] {
      assert a + b == a;
    } else {
      var n := |b| - 1;
      var ab := a + b;
      var sa, sb, t := Selected(a, kod, k, shift, w), Selected(b[..n], kod, k, shift, w),
                       if Matches(b[n], kod, k, shift, w) then [PointOf(b[n])] else [];
      assert Selected(ab, kod, k, shift, w) == (sa + sb) + t by {
        assert ab[..|ab| - 1] == a + b[..n];
        assert ab[|ab| - 1] == b[n];
        SelectedOfConcat(a, b[..n], kod, k, shift, w);
      }
      assert Selected(b, kod, k, shift, w) == sb + t;
      assert (sa + sb) + t == sa + (sb + t);
    }
  }

  /** The selection of one record: its point when the mask accepts it, else nothing. */
  lemma SelectedOfOne(r: LongRecord, kod: string, k: Kind, shift: string, w: Window)
    ensures Selected([r], kod, k, shift, w) == if Matches(r, kod, k, shift, w) then [PointOf(r)] else []
  {
    assert [r][..0] == [];
  }

  /** Points ordered by day. */
  predicate DayLe(p: Point, q: Point) {
    p.day <= q.day
  }

  predicate SortedByDay(ps: seq<Point>) {
    forall i, j :: 0 <= i < j < |ps| ==> ps[i].day <= ps[j].day
  }

  /** `sort_values('Dzien')`: the same points, in ascending day order (no promise about ties). */
  function SortByDay(ps: seq<Point>): (r: seq<Point>)
    ensures SortedByDay(r)
    ensures multiset(r) == multiset(ps)
  {
    assert Total(DayLe) && Transitive(DayLe);
    SortBy(ps, DayLe)
  }

  function SeriesOf(records: seq<LongRecord>, kod: string, w: Window, k: Kind, shift: string): Series {
    Series(k, shift, SortByDay(Selected(records, kod, k, shift, w)))
  }

  /** One `for brygada in [...]` loop: a series per shift whose selection is not empty. */
  function KindSeries(records: seq<LongRecord>, kod: string, w: Window, k: Kind, shifts: seq<string>): seq<Series>
    decreases |shifts|, records
  {
    if shifts == [] then []
    else
      var n := |shifts| - 1;
      KindSeries(records, kod, w, k, shifts[..n]) + ShiftSeries(records, kod, w, k, shifts[n])
  }

  /** What one pass of the loop appends: the shift's series, unless its selection is empty. */
  function ShiftSeries(records: seq<LongRecord>, kod: string, w: Window, k: Kind, shift: string): seq<Series> {
    if Selected(records, kod, k, shift, w) != [] then [SeriesOf(records, kod, w, k, shift)] else []
  }

  /** The series of one machine: the bar loop, then the line loop. */
  function SeriesFor(records: seq<LongRecord>, kod: string, w: Window): seq<Series> {
    SeriesOver(records, kod, w, Shifts)
  }

  /** A bar loop and then a line loop over `shifts`. */
  function SeriesOver(records: seq<LongRecord>, kod: string, w: Window, shifts: seq<string>): seq<Series> {
    KindSeries(records, kod, w, Bar, shifts) + KindSeries(records, kod, w, Line, shifts)
  }

  /** One `for brygada in [...]` loop: a series of kind `k` for each shift that has data. */
  method ShiftLoop(records: seq<LongRecord>, kod: string, w: Window, k: Kind, shifts: seq<string>)
    returns (out: seq<Series>)
    ensures out == KindSeries(records, kod, w, k, shifts)
  {
    out := [];
    for n := 0 to |shifts|
      invariant out == KindSeries(records, kod, w, k, shifts[..n])
    {
      var shift := shifts[n];
      var selected := Selected(records, kod, k, shift, w);
      KindSeriesStep(records, kod, w, k, shifts, n);
      if selected != [] {
        out := out + [Series(k, shift, SortByDay(selected))];
      }
    }
    assert shifts[..|shifts|] == shifts;
  }

  /** The bar loop, then the line loop, appending to `series_data`. */
  method BuildSeries(records: seq<LongRecord>, kod: string, w: Window) returns (series: seq<Series>)
    ensures series == SeriesFor(records, kod, w)
  {
    series := ShiftLoop(records, kod, w, Bar, Shifts);
    var lines := ShiftLoop(records, kod, w, Line, Shifts);
    series := series + lines;
  }

  /** One more shift of the loop appends that shift's series, if its selection is not empty. */
  lemma KindSeriesStep(records: seq<LongRecord>, kod: string, w: Window, k: Kind, shifts: seq<string>, n: nat)
    requires n < |shifts|
    ensures KindSeries(records, kod, w, k, shifts[..n + 1])
            == KindSeries(records, kod, w, k, shifts[..n]) + ShiftSeries(records, kod, w, k, shifts[n])
  {
    assert shifts[..n + 1][..n] == shifts[..n];
  }

  /** Position of a series in the fixed output order: bars A, B, C, then lines A, B, C. */
  function Rank(s: Series): nat {
    (if s.kind == Bar then 0 else 3) + ShiftRank(s.shift)
  }

  function ShiftRank(shift: string): nat {
    if shift == "A" then 0 else if shift == "B" then 1 else 2
  }

  /** What one shift loop appends: at most one series per shift, each the non-empty selection of its shift. */
  lemma KindSeriesMembers(records: seq<LongRecord>, kod: string, w: Window, k: Kind, shifts: seq<string>)
    ensures |KindSeries(records, kod, w, k, shifts)| <= |shifts|
    ensures forall s :: s in KindSeries(records, kod, w, k, shifts) ==>
              s.kind == k && s.shift in shifts && s == SeriesOf(records, kod, w, k, s.shift)
              && Selected(records, kod, k, s.shift, w) != []
    ensures forall sh :: sh in shifts && Selected(records, kod, k, sh, w) != [] ==>
              SeriesOf(records, kod, w, k, sh) in KindSeries(records, kod, w, k, shifts)
  {
    KindSeriesLength(records, kod, w, k, shifts);
    KindSeriesSound(records, kod, w, k, shifts);
    KindSeriesComplete(records, kod, w, k, shifts);
  }

  /** One shift loop appends at most one series per shift. */
  lemma {:induction false} KindSeriesLength(records: seq<LongRecord>, kod: string, w: Window, k: Kind, shifts: seq<string>)
    ensures |KindSeries(records, kod, w, k, shifts)| <= |shifts|
    decreases |shifts|
  {
    if shifts != [] {
      KindSeriesLength(records, kod, w, k, shifts[..|shifts| - 1]);
    }
  }

  /** Every series a shift loop appends is the series of one of its shifts, whose selection is not empty. */
  lemma {:induction false} KindSeriesSound(records: seq<LongRecord>, kod: string, w: Window, k: Kind, shifts: seq<string>)
    ensures forall s :: s in KindSeries(records, kod, w, k, shifts) ==>
              s.kind == k && s.shift in shifts && s == SeriesOf(records, kod, w, k, s.shift)
              && Selected(records, kod, k, s.shift, w) != []
    decreases |shifts|
  {
    if shifts != [] {
      var n := |shifts| - 1;
      var front := shifts[..n];
      KindSeriesSound(records, kod, w, k, front);
      assert KindSeries(records, kod, w, k, shifts)
             == KindSeries(records, kod, w, k, front) + ShiftSeries(records, kod, w, k, shifts[n]);
      assert forall sh :: sh in front ==> sh in shifts;
      assert shifts[n] in shifts;
    }
  }

  /** A shift loop appends the series of every one of its shifts whose selection is not empty. */
  lemma KindSeriesComplete(records: seq<LongRecord>, kod: string, w: Window, k: Kind, shifts: seq<string>)
    ensures forall sh :: sh in shifts && Selected(records, kod, k, sh, w) != [] ==>
              SeriesOf(records, kod, w, k, sh) in KindSeries(records, kod, w, k, shifts)
  {
    forall sh | sh in shifts && Selected(records, kod, k, sh, w) != []
      ensures SeriesOf(records, kod, w, k, sh) in KindSeries(records, kod, w, k, shifts)
    {
      KindSeriesHas(records, kod, w, k, shifts, sh);
    }
  }

  lemma KindSeriesHas(records: seq<LongRecord>, kod: string, w: Window, k: Kind, shifts: seq<string>, sh: string)
    requires sh in shifts && Selected(records, kod, k, sh, w) != []
    ensures SeriesOf(records, kod, w, k, sh) in KindSeries(records, kod, w, k, shifts)
  {
    var i :| 0 <= i < |shifts| && shifts[i] == sh;
    assert SeriesOf(records, kod, w, k, sh) in ShiftSeries(records, kod, w, k, sh);
    ShiftSeriesInKindSeries(records, kod, w, k, shifts, i);
  }

  /** Whatever the pass for the loop's `i`-th shift appends is in the loop's result. */
  lemma {:induction false} ShiftSeriesInKindSeries(records: seq<LongRecord>, kod: string, w: Window, k: Kind, shifts: seq<string>, i: nat)
    requires i < |shifts|
    ensures forall s :: s in ShiftSeries(records, kod, w, k, shifts[i]) ==> s in KindSeries(records, kod, w, k, shifts)
    decreases |shifts|
  {
    var n := |shifts| - 1;
    var front := shifts[..n];
    var here := ShiftSeries(records, kod, w, k, shifts[i]);
    var before, last := KindSeries(records, kod, w, k, front), ShiftSeries(records, kod, w, k, shifts[n]);
    KindSeriesSplit(records, kod, w, k, shifts);
    if i == n {
      assert here == last;
    } else {
      assert front[i] == shifts[i];
      ShiftSeriesInKindSeries(records, kod, w, k, front, i);
      assert forall s :: s in here ==> s in before;
    }
    assert forall s :: s in here ==> s in before + last;
  }

  /** The loop's result is the result over all but the last shift, then the last shift's pass. */
  lemma KindSeriesSplit(records: seq<LongRecord>, kod: string, w: Window, k: Kind, shifts: seq<string>)
    requires shifts != []
    ensures KindSeries(records, kod, w, k, shifts)
            == KindSeries(records, kod, w, k, shifts[..|shifts| - 1]) + ShiftSeries(records, kod, w, k, shifts[|shifts| - 1])
  {
  }

  /** A shift loop over shifts of increasing rank appends series of increasing rank. */
  lemma {:induction false} KindSeriesOrdered(records: seq<LongRecord>, kod: string, w: Window, k: Kind, shifts: seq<string>)
    requires forall i, j :: 0 <= i < j < |shifts| ==> ShiftRank(shifts[i]) < ShiftRank(shifts[j])
    ensures forall i, j :: 0 <= i < j < |KindSeries(records, kod, w, k, shifts)| ==>
              ShiftRank(KindSeries(records, kod, w, k, shifts)[i].shift)
              < ShiftRank(KindSeries(records, kod, w, k, shifts)[j].shift)
    decreases |shifts|
  {
    if shifts != [] {
      var n := |shifts| - 1;
      var front := shifts[..n];
      var before, last := KindSeries(records, kod, w, k, front), ShiftSeries(records, kod, w, k, shifts[n]);
      KindSeriesOrdered(records, kod, w, k, front);
      KindSeriesSound(records, kod, w, k, front);
      forall s | s in before ensures ShiftRank(s.shift) < ShiftRank(shifts[n]) {
        var m :| 0 <= m < n && front[m] == s.shift;
      }
      assert |last| <= 1 && forall s :: s in last ==> s.shift == shifts[n];
      AppendHigherShift(before, last, shifts[n]);
      KindSeriesSplit(records, kod, w, k, shifts);
    }
  }

  /** Appending at most one series of a shift ranked above all earlier ones keeps the ranks ascending. */
  lemma AppendHigherShift(front: seq<Series>, piece: seq<Series>, shift: string)
    requires forall i, j :: 0 <= i < j < |front| ==> ShiftRank(front[i].shift) < ShiftRank(front[j].shift)
    requires forall s :: s in front ==> ShiftRank(s.shift) < ShiftRank(shift)
    requires |piece| <= 1 && forall s :: s in piece ==> s.shift == shift
    ensures forall i, j :: 0 <= i < j < |front + piece| ==>
              ShiftRank((front + piece)[i].shift) < ShiftRank((front + piece)[j].shift)
  {
    var all := front + piece;
    forall i, j | 0 <= i < j < |all| ensures ShiftRank(all[i].shift) < ShiftRank(all[j].shift) {
      assert all[i] == front[i] && front[i] in front;
      if j >= |front| {
        assert all[j] == piece[0] && piece[0] in piece;
      } else {
        assert all[j] == front[j];
      }
    }
  }

  /**
   * The series one shift loop appends: none empty, each one's points ascending
   * by day and exactly the points its mask selects; and the series of a shift
   * is there exactly when some record matches its mask.
   */
  lemma KindSeriesContents(records: seq<LongRecord>, kod: string, w: Window, k: Kind, shifts: seq<string>)
    ensures forall s :: s in KindSeries(records, kod, w, k, shifts) ==>
              s.kind == k && s.shift in shifts && s == SeriesOf(records, kod, w, k, s.shift)
              && s.points != [] && SortedByDay(s.points)
              && multiset(s.points) == multiset(Selected(records, kod, k, s.shift, w))
    ensures forall sh :: sh in shifts ==>
              (SeriesOf(records, kod, w, k, sh) in KindSeries(records, kod, w, k, shifts)
               <==> exists r :: r in records && Matches(r, kod, k, sh, w))
  {
    var ks := KindSeries(records, kod, w, k, shifts);
    KindSeriesMembers(records, kod, w, k, shifts);
    forall s | s in ks
      ensures s.points != [] && multiset(s.points) == multiset(Selected(records, kod, k, s.shift, w))
    {
      var sel := Selected(records, kod, k, s.shift, w);
      assert s.points == SortByDay(sel);
      assert |multiset(s.points)| == |multiset(sel)|;
    }
    forall sh | sh in shifts
      ensures SeriesOf(records, kod, w, k, sh) in ks <==> exists r :: r in records && Matches(r, kod, k, sh, w)
    {
      var sel := Selected(records, kod, k, sh, w);
      SelectedMembers(records, kod, k, sh, w);
      if exists r :: r in records && Matches(r, kod, k, sh, w) {
        var r :| r in records && Matches(r, kod, k, sh, w);
        assert PointOf(r) in sel;
      }
      if SeriesOf(records, kod, w, k, sh) in ks {
        assert sel != [];
        assert sel[0] in sel;
      }
    }
  }

  /** Bars with ascending shifts followed by lines with ascending shifts are in ascending rank. */
  lemma RanksAscend(bars: seq<Series>, lines: seq<Series>)
    requires forall s :: s in bars ==> s.kind == Bar
    requires forall s :: s in lines ==> s.kind == Line
    requires forall i, j :: 0 <= i < j < |bars| ==> ShiftRank(bars[i].shift) < ShiftRank(bars[j].shift)
    requires forall i, j :: 0 <= i < j < |lines| ==> ShiftRank(lines[i].shift) < ShiftRank(lines[j].shift)
    ensures forall i, j :: 0 <= i < j < |bars + lines| ==> Rank((bars + lines)[i]) < Rank((bars + lines)[j])
  {
    var all := bars + lines;
    forall i, j | 0 <= i < j < |all| ensures Rank(all[i]) < Rank(all[j]) {
      if j < |bars| {
        assert all[i] == bars[i] && all[j] == bars[j];
        assert bars[i] in bars && bars[j] in bars;
      } else if i >= |bars| {
        assert all[i] == lines[i - |bars|] && all[j] == lines[j - |bars|];
        assert all[i] in lines && all[j] in lines;
      } else {
        assert all[i] == bars[i] && all[i] in bars;
        assert all[j] == lines[j - |bars|] && all[j] in lines;
      }
    }
  }

  /**
   * The shape of the series two shift loops over `shifts` produce: at most
   * two per shift; bars before lines and shifts in ascending rank within each;
   * none empty; each one's points ascending by day and exactly the points its
   * mask selects; and the series of a (kind, shift) is present exactly when
   * some record matches its mask.
   */
  lemma SeriesShapeOver(records: seq<LongRecord>, kod: string, w: Window, shifts: seq<string>)
    requires forall i, j :: 0 <= i < j < |shifts| ==> ShiftRank(shifts[i]) < ShiftRank(shifts[j])
    ensures |SeriesOver(records, kod, w, shifts)| <= 2 * |shifts|
    ensures forall i, j :: 0 <= i < j < |SeriesOver(records, kod, w, shifts)| ==>
              Rank(SeriesOver(records, kod, w, shifts)[i]) < Rank(SeriesOver(records, kod, w, shifts)[j])
    ensures forall s :: s in SeriesOver(records, kod, w, shifts) ==>
              s.shift in shifts && s == SeriesOf(records, kod, w, s.kind, s.shift)
              && s.points != [] && SortedByDay(s.points)
              && multiset(s.points) == multiset(Selected(records, kod, s.kind, s.shift, w))
    ensures forall k, sh :: sh in shifts ==>
              (SeriesOf(records, kod, w, k, sh) in SeriesOver(records, kod, w, shifts)
               <==> exists r :: r in records && Matches(r, kod, k, sh, w))
  {
    var bars := KindSeries(records, kod, w, Bar, shifts);
    var lines := KindSeries(records, kod, w, Line, shifts);
    KindSeriesMembers(records, kod, w, Bar, shifts);
    KindSeriesMembers(records, kod, w, Line, shifts);
    KindSeriesContents(records, kod, w, Bar, shifts);
    KindSeriesContents(records, kod, w, Line, shifts);
    KindSeriesOrdered(records, kod, w, Bar, shifts);
    KindSeriesOrdered(records, kod, w, Line, shifts);
    RanksAscend(bars, lines);
    forall k, sh | sh in shifts
      ensures SeriesOf(records, kod, w, k, sh) in bars + lines <==> exists r :: r in records && Matches(r, kod, k, sh, w)
    {
      var s := SeriesOf(records, kod, w, k, sh);
      if k == Bar {
        assert s !in lines;
      } else {
        assert s !in bars;
      }
    }
  }

  /**
   * The shape of a machine's series: at most six; bars before lines and
   * shifts in the order A, B, C within each; none empty; each one's points
   * ascending by day and exactly the points its mask selects; and the series
   * of a (kind, shift) is present exactly when some record matches its mask.
   */
  lemma SeriesShape(records: seq<LongRecord>, kod: string, w: Window)
    ensures |SeriesFor(records, kod, w)| <= 6
    ensures forall i, j :: 0 <= i < j < |SeriesFor(records, kod, w)| ==>
              Rank(SeriesFor(records, kod, w)[i]) < Rank(SeriesFor(records, kod, w)[j])
    ensures forall s :: s in SeriesFor(records, kod, w) ==>
              s.shift in Shifts && s == SeriesOf(records, kod, w, s.kind, s.shift)
              && s.points != [] && SortedByDay(s.points)
              && multiset(s.points) == multiset(Selected(records, kod, s.kind, s.shift, w))
    ensures forall k, sh :: sh in Shifts ==>
              (SeriesOf(records, kod, w, k, sh) in SeriesFor(records, kod, w)
               <==> exists r :: r in records && Matches(r, kod, k, sh, w))
  {
    SeriesShapeOver(records, kod, w, Shifts);
  }

  /** A machine code that no record carries gets no series. */
  lemma UnknownMachineHasNoSeries(records: seq<LongRecord>, kod: string, w: Window)
    ensures (forall r :: r in records ==> r.kod != kod) ==> SeriesFor(records, kod, w) == []
  {
    SeriesShape(records, kod, w);
    var all := SeriesFor(records, kod, w);
    if all != [] {
      var s := all[0];
      assert s in all;
      assert SeriesOf(records, kod, w, s.kind, s.shift) in all;
      var r :| r in records && Matches(r, kod, s.kind, s.shift, w);
      assert r.kod == kod;
    }
  }

  /**
   * `get_chart_data_for_machine`: the series of machine `kod` over days
   * `startDay .. startDay + 6`; an empty table or an unknown code gives none.
   */
  method ChartDataForMachine(records: seq<LongRecord>, kod: string, startDay: int) returns (series: seq<Series>)
    ensures series == SeriesFor(records, kod, Days(startDay, startDay + 6))
    ensures (forall r :: r in records ==> r.kod != kod) ==> series == []
    ensures forall s, p :: s in series && p in s.points ==> startDay <= p.day <= startDay + 6
  {
    var w := Days(startDay, startDay + 6);
    WindowBoundsPoints(records, kod, w);
    var known := exists r :: r in records && r.kod == kod;
    if records == [] || !known {
      UnknownMachineHasNoSeries(records, kod, w);
      return [];
    }
    series := BuildSeries(records, kod, w);
    if forall r :: r in records ==> r.kod != kod {
      UnknownMachineHasNoSeries(records, kod, w);
    }
  }

  /** Every point of a windowed series lies inside the window. */
  lemma WindowBoundsPoints(records: seq<LongRecord>, kod: string, w: Window)
    requires w.Days?
    ensures forall s, p :: s in SeriesFor(records, kod, w) && p in s.points ==> w.first <= p.day <= w.last
  {
    SeriesShape(records, kod, w);
    forall s, p | s in SeriesFor(records, kod, w) && p in s.points ensures w.first <= p.day <= w.last {
      var sel := Selected(records, kod, s.kind, s.shift, w);
      SelectedMembers(records, kod, s.kind, s.shift, w);
      assert p in multiset(s.points);
      assert p in sel;
    }
  }

  /** The Nazwa of the first record of machine `kod`, or "" when there is none. */
  function FirstNazwa(records: seq<LongRecord>, kod: string): (n: string)
    ensures (forall r :: r in records ==> r.kod != kod) ==> n == ""
    ensures (exists r :: r in records && r.kod == kod) ==>
              exists i :: 0 <= i < |records| && records[i].kod == kod && records[i].nazwa == n
                          && forall j :: 0 <= j < i ==> records[j].kod != kod
    decreases |records|
  {
    if records == [] then ""
    else if records[0].kod == kod then records[0].nazwa
    else
      assert forall i :: 1 <= i < |records| ==> records[i] == records[1..][i - 1];
      assert forall r :: r in records && r != records[0] ==> r in records[1..] by {
        assert records == [records[0]] + records[1..];
      }
      FirstNazwa(records[1..], kod)
  }

  /**
   * `api_series`: an empty table or an empty code gives no series and an empty
   * name; otherwise every series of the machine over all days, with the name
   * of the machine's first record.
   */
  method ApiSeries(records: seq<LongRecord>, kod: string) returns (resp: SeriesResponse)
    ensures records == [] || kod == "" ==> resp == SeriesResponse([], kod, "")
    ensures records != [] && kod != "" ==>
              resp == SeriesResponse(SeriesFor(records, kod, AllDays), kod, FirstNazwa(records, kod))
    ensures resp.kod == kod
  {
    if records == [] || kod == "" {
      return SeriesResponse([], kod, "");
    }
    var nazwa := FirstNazwa(records, kod);
    var series := BuildSeries(records, kod, AllDays);
    resp := SeriesResponse(series, kod, nazwa);
  }
}
