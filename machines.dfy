/**
 * The machine picker of `/api/machines` and `/wykres`: the distinct
 * (Kod, Nazwa) pairs of the long table, sorted by Kod, each labelled
 * "Kod Nazwa" (or just the Kod when the Nazwa is blank); the first entry is
 * the machine `/wykres` draws by default.
 */
module Machines {
  import opened Strings
  import opened Reshaper
  import opened Sorting
  import Series

  /** One `(Kod, Nazwa)` row of `df_long[['Kod', 'Nazwa']]`. */
  datatype Pair = Pair(kod: string, nazwa: string)

  /** One entry of the machine list: `{'kod': kod, 'label': caption}`. */
  datatype Machine = Machine(kod: string, caption: string)

  /**
   * The label of a machine: its Kod, then a space and its Nazwa when the
   * Nazwa has something other than whitespace.
   */
  function Label(kod: string, nazwa: string): (l: string)
    ensures |kod| <= |l| && l[..|kod|] == kod
    ensures |l| > |kod| <==> !IsBlank(nazwa)
    ensures !IsBlank(nazwa) ==> l[|kod|] == ' ' && l[|kod| + 1..] == nazwa
  {
    if !IsBlank(nazwa) then kod + " " + nazwa else kod
  }

  /** The `(Kod, Nazwa)` projection of the long table, row by row. */
  function Pairs(records: seq<LongRecord>): (ps: seq<Pair>)
    ensures |ps| == |records|
    ensures forall i :: 0 <= i < |records| ==> ps[i] == Pair(records[i].kod, records[i].nazwa)
  {
    seq(|records|, i requires 0 <= i < |records| => Pair(records[i].kod, records[i].nazwa))
  }

  predicate NoDup(ps: seq<Pair>) {
    forall i, j :: 0 <= i < j < |ps| ==> ps[i] != ps[j]
  }

  /** `drop_duplicates()`: the first occurrence of every pair, in table order. */
  function Distinct(ps: seq<Pair>): (r: seq<Pair>)
    ensures NoDup(r)
    ensures forall p :: p in r <==> p in ps
    decreases |ps|
  {
    if ps == [] then []
    else
      var n := |ps| - 1;
      var front := Distinct(ps[..n]);
      assert ps == ps[..n] + [ps[n]];
      if ps[n] in front then front else front + [ps[n]]
  }

  /** `drop_duplicates()` as a loop that keeps each pair the first time it is seen. */
  method DropDuplicates(ps: seq<Pair>) returns (r: seq<Pair>)
    ensures r == Distinct(ps)
  {
    r := [];
    var i := 0;
    while i < |ps|
      invariant 0 <= i <= |ps|
      invariant r == Distinct(ps[..i])
    {
      assert ps[..i + 1][..i] == ps[..i];
      if ps[i] !in r {
        r := r + [ps[i]];
      }
      i := i + 1;
    }
    assert ps[..|ps|] == ps;
  }

  predicate SortedByKod(ps: seq<Pair>) {
    forall i, j :: 0 <= i < j < |ps| ==> LexLe(ps[i].kod, ps[j].kod)
  }

  /** Pairs ordered by Kod alone. */
  predicate KodLe(a: Pair, b: Pair) {
    LexLe(a.kod, b.kod)
  }

  /** The Kod order is a total preorder on pairs. */
  lemma KodOrder()
    ensures Total(KodLe) && Transitive(KodLe)
  {
    forall a: Pair, b: Pair ensures KodLe(a, b) || KodLe(b, a) {
      LexLeTotal(a.kod, b.kod);
    }
    forall a: Pair, b: Pair, c: Pair | KodLe(a, b) && KodLe(b, c) ensures KodLe(a, c) {
      LexLeTransitive(a.kod, b.kod, c.kod);
    }
  }

  /** `sort_values('Kod')`: the same pairs, ascending by Kod (no promise about equal Kods). */
  function SortByKod(ps: seq<Pair>): (r: seq<Pair>)
    ensures SortedByKod(r)
    ensures multiset(r) == multiset(ps)
  {
    KodOrder();
    SortBy(ps, KodLe)
  }

  function MachineOf(p: Pair): Machine {
    Machine(p.kod, Label(p.kod, p.nazwa))
  }

  /** Each pair as a machine entry, in order. */
  function Labelled(ps: seq<Pair>): (ms: seq<Machine>)
    ensures |ms| == |ps|
    ensures forall i :: 0 <= i < |ps| ==> ms[i] == MachineOf(ps[i])
  {
    seq(|ps|, i requires 0 <= i < |ps| => MachineOf(ps[i]))
  }

  /** The projection is taken row by row: projecting two tables in a row projects each. */
  lemma PairsOfConcat(a: seq<LongRecord>, b: seq<LongRecord>)
    ensures Pairs(a + b) == Pairs(a) + Pairs(b)
  {
    assert |Pairs(a + b)| == |Pairs(a) + Pairs(b)|;
    forall i | 0 <= i < |a + b| ensures Pairs(a + b)[i] == (Pairs(a) + Pairs(b))[i] {
      if i >= |a| {
        assert (a + b)[i] == b[i - |a|];
      }
    }
  }

  /** Labelling is done entry by entry: labelling two lists in a row labels each. */
  lemma LabelledOfConcat(a: seq<Pair>, b: seq<Pair>)
    ensures Labelled(a + b) == Labelled(a) + Labelled(b)
  {
    assert |Labelled(a + b)| == |Labelled(a) + Labelled(b)|;
    forall i | 0 <= i < |a + b| ensures Labelled(a + b)[i] == (Labelled(a) + Labelled(b))[i] {
      if i >= |a| {
        assert (a + b)[i] == b[i - |a|];
      }
    }
  }

  /** Each labelled entry keeps its pair's Kod, and its caption begins with that Kod. */
  lemma LabelledKeepsKod(ps: seq<Pair>)
    ensures forall i :: 0 <= i < |ps| ==>
              Labelled(ps)[i].kod == ps[i].kod
              && |ps[i].kod| <= |Labelled(ps)[i].caption|
              && Labelled(ps)[i].caption[..|ps[i].kod|] == ps[i].kod
  {
  }

  /** The machine list: distinct pairs, sorted by Kod, each labelled. */
  function Machines(records: seq<LongRecord>): seq<Machine> {
    Labelled(SortByKod(Distinct(Pairs(records))))
  }

  /** `get_machines`: an empty table gives []; otherwise one labelled entry per sorted distinct pair. */
  method MachineList(records: seq<LongRecord>) returns (machines: seq<Machine>)
    ensures machines == Machines(records)
    ensures records == [] ==> machines == []
  {
    if records == [] {
      return [];
    }
    var unique := DropDuplicates(Pairs(records));
    machines := LabelAll(SortByKod(unique));
  }

  /** The `iterrows` loop: a `{'kod', 'label'}` entry for each pair, in order. */
  method LabelAll(sorted: seq<Pair>) returns (machines: seq<Machine>)
    ensures machines == Labelled(sorted)
  {
    machines := [];
    for i := 0 to |sorted|
      invariant |machines| == i
      invariant forall k :: 0 <= k < i ==> machines[k] == MachineOf(sorted[k])
    {
      var kod := sorted[i].kod;
      var nazwa := sorted[i].nazwa;
      if !IsBlank(nazwa) {
        machines := machines + [Machine(kod, kod + " " + nazwa)];
      } else {
        machines := machines + [Machine(kod, kod)];
      }
    }
  }

  /** The list is in ascending Kod order. */
  lemma MachinesSorted(records: seq<LongRecord>)
    ensures forall i, j :: 0 <= i < j < |Machines(records)| ==>
              LexLe(Machines(records)[i].kod, Machines(records)[j].kod)
  {
    var sorted := SortByKod(Distinct(Pairs(records)));
    assert forall i :: 0 <= i < |sorted| ==> Machines(records)[i].kod == sorted[i].kod;
  }

  /**
   * Every record's machine is listed under its own label, and every entry of
   * the list is the machine of some record.
   */
  lemma MachinesFromRecords(records: seq<LongRecord>)
    ensures forall r :: r in records ==> MachineOf(Pair(r.kod, r.nazwa)) in Machines(records)
    ensures forall m :: m in Machines(records) ==> exists r :: r in records && m == MachineOf(Pair(r.kod, r.nazwa))
  {
    var ps := Pairs(records);
    var sorted := SortByKod(Distinct(ps));
    var ms := Machines(records);
    forall r | r in records ensures MachineOf(Pair(r.kod, r.nazwa)) in ms {
      var i :| 0 <= i < |records| && records[i] == r;
      assert ps[i] in ps;
      assert Pair(r.kod, r.nazwa) in multiset(sorted);
      var k :| 0 <= k < |sorted| && sorted[k] == Pair(r.kod, r.nazwa);
      assert ms[k] == MachineOf(sorted[k]);
    }
    forall m | m in ms ensures exists r :: r in records && m == MachineOf(Pair(r.kod, r.nazwa)) {
      var k :| 0 <= k < |ms| && ms[k] == m;
      assert sorted[k] in multiset(Distinct(ps));
      assert sorted[k] in Distinct(ps);
      assert sorted[k] in ps;
      var i :| 0 <= i < |ps| && ps[i] == sorted[k];
      assert records[i] in records;
    }
  }

  /** A list without repeats has as many elements as its set. */
  lemma {:induction false} NoDupCardinality(ps: seq<Pair>)
    requires NoDup(ps)
    ensures |set p | p in ps| == |ps|
    decreases |ps|
  {
    if ps != [] {
      var n := |ps| - 1;
      var front := ps[..n];
      NoDupCardinality(front);
      assert forall i :: 0 <= i < n ==> front[i] != ps[n];
      assert (set p | p in ps) == (set p | p in front) + {ps[n]} by {
        assert ps == front + [ps[n]];
      }
    }
  }

  /** The list has exactly one entry per distinct (Kod, Nazwa) pair of the table. */
  lemma MachinesCount(records: seq<LongRecord>)
    ensures |Machines(records)| == |set r | r in records :: Pair(r.kod, r.nazwa)|
  {
    var ps := Pairs(records);
    var unique := Distinct(ps);
    NoDupCardinality(unique);
    assert |SortByKod(unique)| == |multiset(SortByKod(unique))| == |multiset(unique)|;
    assert (set p | p in unique) == (set r | r in records :: Pair(r.kod, r.nazwa)) by {
      forall p | p in unique ensures p in (set r | r in records :: Pair(r.kod, r.nazwa)) {
        var i :| 0 <= i < |ps| && ps[i] == p;
        assert records[i] in records;
      }
      forall r | r in records ensures Pair(r.kod, r.nazwa) in unique {
        var i :| 0 <= i < |records| && records[i] == r;
        assert ps[i] in ps;
      }
    }
  }

  /**
   * `/wykres`'s default machine: the Kod and label of the first entry of the
   * list, or two empty strings when the list is empty.
   */
  function DefaultMachine(records: seq<LongRecord>): (d: Machine)
    ensures records == [] ==> d == Machine("", "")
    ensures records != [] ==> exists r :: r in records && d == MachineOf(Pair(r.kod, r.nazwa))
    ensures forall r :: r in records ==> LexLe(d.kod, r.kod)
  {
    MachinesFromRecords(records);
    MachinesSorted(records);
    var ms := Machines(records);
    if records == [] then Machine("", "")
    else
      assert records[0] in records;
      assert ms != [] && ms[0] in ms;
      forall r | r in records ensures LexLe(ms[0].kod, r.kod) {
        var k :| 0 <= k < |ms| && ms[k] == MachineOf(Pair(r.kod, r.nazwa));
        if k == 0 {
          LexLeReflexive(r.kod);
        }
      }
      ms[0]
  }

  /** What `/wykres` renders: the machine list, the default machine, and that machine's traces. */
  datatype ChartPage = ChartPage(machines: seq<Machine>, defaultKod: string, defaultLabel: string,
                                 traces: seq<Series.Series>)

  /**
   * `/wykres`: an empty table gives an empty page; otherwise the machine
   * list, its first entry as the default machine, and the bar and line
   * traces of that machine over all days.
   */
  method Wykres(records: seq<LongRecord>) returns (page: ChartPage)
    ensures records == [] ==> page == ChartPage([], "", "", [])
    ensures records != [] ==>
              page.machines == Machines(records)
              && Machine(page.defaultKod, page.defaultLabel) == DefaultMachine(records)
              && page.traces == Series.SeriesFor(records, page.defaultKod, Series.AllDays)
    ensures forall r :: r in records ==> LexLe(page.defaultKod, r.kod)
  {
    if records == [] {
      return ChartPage([], "", "", []);
    }
    var machines := MachineList(records);
    var first := DefaultMachine(records);
    var traces := Series.BuildSeries(records, first.kod, Series.AllDays);
    page := ChartPage(machines, first.kod, first.caption, traces);
  }
}
