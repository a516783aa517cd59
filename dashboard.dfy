/**
 * The dashboard tab (tracker.py lines 126-186): summary figures, records and
 * per-subject / per-topic rollups of the loaded history table, all pure.
 */
module Dashboard {
  import opened Wrappers
  import opened SessionStore

  // ----- Totals -----

  /**
   * `df['Duration_Minutes'].sum()`, the reference definition of the total;
   * `TotalMinutesConcat` and `TotalBetween` state its properties.
   */
  function TotalMinutes(rows: seq<Row>): real
  {
    if rows == [] then 0.0 else TotalMinutes(rows[..|rows| - 1]) + rows[|rows| - 1].minutes
  }

  /**
   * `df['Breaks'].sum()`: never negative when no count is, and positive
   * only when some session has a break.
   */
  function TotalBreaks(rows: seq<Row>): (t: int)
    ensures (forall i :: 0 <= i < |rows| ==> rows[i].breaks >= 0) ==> t >= 0
    ensures t > 0 ==> exists i :: 0 <= i < |rows| && rows[i].breaks > 0
  {
    if rows == [] then 0 else TotalBreaks(rows[..|rows| - 1]) + rows[|rows| - 1].breaks
  }

  /** The three top-level metrics (tracker.py lines 130-137). */
  datatype Metrics = Metrics(totalHours: real, sessions: nat, average: real)

  function Summary(rows: seq<Row>): (m: Metrics)
    requires rows != []
    ensures m.sessions == |rows|
    ensures m.totalHours == TotalMinutes(rows) / 60.0
    ensures m.average == TotalMinutes(rows) / m.sessions as real
  {
    var total := TotalMinutes(rows);
    Metrics(total / 60.0, |rows|, total / |rows| as real)
  }

  // ----- Records -----

  function Durations(rows: seq<Row>): (xs: seq<real>)
    ensures |xs| == |rows| && forall i :: 0 <= i < |rows| ==> xs[i] == rows[i].minutes
  {
    seq(|rows|, i requires 0 <= i < |rows| => rows[i].minutes)
  }

  function BreakCounts(rows: seq<Row>): (xs: seq<real>)
    ensures |xs| == |rows| && forall i :: 0 <= i < |rows| ==> xs[i] == rows[i].breaks as real
  {
    seq(|rows|, i requires 0 <= i < |rows| => rows[i].breaks as real)
  }

  /** `idxmax`: the first position holding the largest value. */
  function FirstArgMax(xs: seq<real>): (k: nat)
    requires xs != []
    ensures k < |xs|
    ensures forall j :: 0 <= j < |xs| ==> xs[j] <= xs[k]
    ensures forall j :: 0 <= j < k ==> xs[j] < xs[k]
  {
    if |xs| == 1 then 0
    else
      var k := FirstArgMax(xs[..|xs| - 1]);
      if xs[|xs| - 1] > xs[k] then |xs| - 1 else k
  }

  /** `idxmin`: the first position holding the smallest value. */
  function FirstArgMin(xs: seq<real>): (k: nat)
    requires xs != []
    ensures k < |xs|
    ensures forall j :: 0 <= j < |xs| ==> xs[k] <= xs[j]
    ensures forall j :: 0 <= j < k ==> xs[k] < xs[j]
  {
    if |xs| == 1 then 0
    else
      var k := FirstArgMin(xs[..|xs| - 1]);
      if xs[|xs| - 1] < xs[k] then |xs| - 1 else k
  }

  /** The longest session (tracker.py line 146); the table's index is its row position. */
  function Longest(rows: seq<Row>): (k: nat)
    requires rows != []
    ensures k < |rows|
    ensures forall j :: 0 <= j < |rows| ==> rows[j].minutes <= rows[k].minutes
    ensures forall j :: 0 <= j < k ==> rows[j].minutes < rows[k].minutes
  {
    FirstArgMax(Durations(rows))
  }

  /** The shortest session (tracker.py line 150). */
  function Shortest(rows: seq<Row>): (k: nat)
    requires rows != []
    ensures k < |rows|
    ensures forall j :: 0 <= j < |rows| ==> rows[k].minutes <= rows[j].minutes
    ensures forall j :: 0 <= j < k ==> rows[k].minutes < rows[j].minutes
  {
    FirstArgMin(Durations(rows))
  }

  /** The most distracted session, reported only when some break was recorded (tracker.py lines 154-158). */
  function MostDistracted(rows: seq<Row>): (k: Option<nat>)
    ensures k.Some? <==> TotalBreaks(rows) > 0
    ensures k.Some? ==> k.value < |rows|
    ensures k.Some? ==> forall j :: 0 <= j < |rows| ==> rows[j].breaks <= rows[k.value].breaks
    ensures k.Some? ==> forall j :: 0 <= j < k.value ==> rows[j].breaks < rows[k.value].breaks
  {
    if TotalBreaks(rows) > 0 then
      var xs := BreakCounts(rows);
      var k := FirstArgMax(xs);
      assert forall j :: 0 <= j < |rows| ==> xs[j] <= xs[k];
      Some(k)
    else None
  }

  /** The total of two tables joined is the sum of their totals. */
  lemma {:induction false} TotalMinutesConcat(a: seq<Row>, b: seq<Row>)
    ensures TotalMinutes(a + b) == TotalMinutes(a) + TotalMinutes(b)
    decreases |b|
  {
    if b == [] {
      assert a + b == a;
    } else {
      var init := b[..|b| - 1];
      assert (a + b)[..|a + b| - 1] == a + init;
      TotalMinutesConcat(a, init);
    }
  }

  /** Every duration lies between `lo` and `hi`, so the sum is between `n * lo` and `n * hi`. */
  lemma {:induction false} TotalBetween(rows: seq<Row>, lo: real, hi: real)
    requires forall i :: 0 <= i < |rows| ==> lo <= rows[i].minutes <= hi
    ensures |rows| as real * lo <= TotalMinutes(rows) <= |rows| as real * hi
  {
    if rows != [] {
      var init, last := rows[..|rows| - 1], rows[|rows| - 1];
      assert forall i :: 0 <= i < |init| ==> init[i] == rows[i];
      TotalBetween(init, lo, hi);
      assert TotalMinutes(rows) == TotalMinutes(init) + last.minutes;
      assert |rows| as real == |init| as real + 1.0;
      AddBetween(|init| as real, lo, TotalMinutes(init), hi, last.minutes);
    }
  }

  lemma AddBetween(k: real, lo: real, t: real, hi: real, x: real)
    requires k * lo <= t <= k * hi && lo <= x <= hi
    ensures (k + 1.0) * lo <= t + x <= (k + 1.0) * hi
  {
  }

  /** The average session lies between the shortest and the longest one. */
  lemma AverageBetweenRecords(rows: seq<Row>)
    requires rows != []
    ensures rows[Shortest(rows)].minutes <= Summary(rows).average <= rows[Longest(rows)].minutes
  {
    AverageBetween(rows, rows[Shortest(rows)].minutes, rows[Longest(rows)].minutes);
  }

  lemma AverageBetween(rows: seq<Row>, lo: real, hi: real)
    requires rows != []
    requires forall i :: 0 <= i < |rows| ==> lo <= rows[i].minutes <= hi
    ensures lo <= Summary(rows).average <= hi
  {
    var n, total := |rows| as real, TotalMinutes(rows);
    TotalBetween(rows, lo, hi);
    DivideBetween(n, lo, total, hi);
  }

  lemma DivideBetween(n: real, lo: real, t: real, hi: real)
    requires n > 0.0 && n * lo <= t <= n * hi
    ensures lo <= t / n <= hi
  {
    assert t == n * (t / n);
  }

  /** With one row, that row is both the longest and the shortest session. */
  lemma SingleRowRecords(row: Row)
    ensures Longest([row]) == 0 && Shortest([row]) == 0
    ensures Summary([row]).average == row.minutes
  {
    assert TotalMinutes([row]) == TotalMinutes([row][..0]) + row.minutes;
  }

  // ----- Rollups by subject and by topic -----

  datatype Key = BySubject | ByTopic

  function Label(r: Row, key: Key): string
  {
    match key
    case BySubject => r.subject
    case ByTopic => r.topic
  }

  /** One entry of `df.groupby(column)["Duration_Minutes"].sum()`. */
  datatype Group = Group(name: string, minutes: real)

  /** The reference definition: the minutes of all rows carrying `name`. */
  function MinutesFor(rows: seq<Row>, key: Key, name: string): real
  {
    if rows == [] then 0.0
    else
      var last := rows[|rows| - 1];
      MinutesFor(rows[..|rows| - 1], key, name) + (if Label(last, key) == name then last.minutes else 0.0)
  }

  function Labels(groups: seq<Group>): set<string>
  {
    set g | g in groups :: g.name
  }

  function RowLabels(rows: seq<Row>, key: Key): set<string>
  {
    set r | r in rows :: Label(r, key)
  }

  predicate DistinctLabels(groups: seq<Group>)
  {
    forall i, j :: 0 <= i < j < |groups| ==> groups[i].name != groups[j].name
  }

  /** The minutes a rollup holds for `name`: its first entry with that name, or 0. */
  function Lookup(groups: seq<Group>, name: string): real
  {
    if groups == [] then 0.0
    else if groups[0].name == name then groups[0].minutes
    else Lookup(groups[1..], name)
  }

  function SumMinutes(groups: seq<Group>): real
  {
    if groups == [] then 0.0 else groups[0].minutes + SumMinutes(groups[1..])
  }

  /** Adds `minutes` to the entry for `name`, creating it at the end if there is none. */
  function AddTo(groups: seq<Group>, name: string, minutes: real): (r: seq<Group>)
    ensures Labels(r) == Labels(groups) + {name}
    ensures forall l :: Lookup(r, l) == Lookup(groups, l) + (if l == name then minutes else 0.0)
    ensures SumMinutes(r) == SumMinutes(groups) + minutes
  {
    if groups == [] then [Group(name, minutes)]
    else if groups[0].name == name then
      var r := [groups[0].(minutes := groups[0].minutes + minutes)] + groups[1..];
      ConsLabels(groups[0], groups[1..]);
      ConsLabels(r[0], groups[1..]);
      assert groups == [groups[0]] + groups[1..];
      assert r[1..] == groups[1..];
      r
    else
      var rest := AddTo(groups[1..], name, minutes);
      var r := [groups[0]] + rest;
      ConsLabels(groups[0], groups[1..]);
      ConsLabels(groups[0], rest);
      assert groups == [groups[0]] + groups[1..];
      assert r[1..] == rest;
      r
  }

  lemma {:induction false} AddToKeepsDistinct(groups: seq<Group>, name: string, minutes: real)
    requires DistinctLabels(groups)
    ensures DistinctLabels(AddTo(groups, name, minutes))
  {
    if groups != [] {
      var r := AddTo(groups, name, minutes);
      assert groups == [groups[0]] + groups[1..];
      DistinctCons(groups[0], groups[1..]);
      if groups[0].name == name {
        assert r == [r[0]] + groups[1..];
        DistinctCons(r[0], groups[1..]);
      } else {
        var rest := AddTo(groups[1..], name, minutes);
        AddToKeepsDistinct(groups[1..], name, minutes);
        DistinctCons(groups[0], rest);
      }
    }
  }

  lemma DistinctCons(g: Group, rest: seq<Group>)
    ensures DistinctLabels([g] + rest) <==> g.name !in Labels(rest) && DistinctLabels(rest)
  {
    var both := [g] + rest;
    if DistinctLabels(both) {
      forall h | h in rest ensures h.name != g.name {
        var j :| 0 <= j < |rest| && rest[j] == h;
        assert both[0] == g && both[j + 1] == h;
      }
      forall i, j | 0 <= i < j < |rest| ensures rest[i].name != rest[j].name {
        assert both[i + 1] == rest[i] && both[j + 1] == rest[j];
      }
    }
    if g.name !in Labels(rest) && DistinctLabels(rest) {
      forall i, j | 0 <= i < j < |both| ensures both[i].name != both[j].name {
        if i == 0 {
          assert both[j] in rest;
        } else {
          assert both[i] == rest[i - 1] && both[j] == rest[j - 1];
        }
      }
    }
  }

  lemma ConsLabels(g: Group, rest: seq<Group>)
    ensures Labels([g] + rest) == {g.name} + Labels(rest)
  {
    var both := [g] + rest;
    forall l | l in Labels(both) ensures l in {g.name} + Labels(rest) {
      var h :| h in both && h.name == l;
      if h != g { assert h in rest; }
    }
    forall l | l in Labels(rest) ensures l in Labels(both) {
      var h :| h in rest && h.name == l;
      assert h in both;
    }
  }

  /**
   * `df.groupby(column)["Duration_Minutes"].sum()`: one entry per distinct
   * label of the table, holding the minutes of the rows with that label.
   */
  function GroupTotals(rows: seq<Row>, key: Key): (r: seq<Group>)
    ensures DistinctLabels(r)
    ensures Labels(r) == RowLabels(rows, key)
    ensures forall l :: Lookup(r, l) == MinutesFor(rows, key, l)
    ensures SumMinutes(r) == TotalMinutes(rows)
  {
    if rows == [] then []
    else
      var init, last := rows[..|rows| - 1], rows[|rows| - 1];
      assert rows == init + [last];
      assert RowLabels(rows, key) == RowLabels(init, key) + {Label(last, key)};
      AddToKeepsDistinct(GroupTotals(init, key), Label(last, key), last.minutes);
      AddTo(GroupTotals(init, key), Label(last, key), last.minutes)
  }

  /** The minutes of a label over two tables joined are the sum of its minutes over each. */
  lemma {:induction false} MinutesForConcat(a: seq<Row>, b: seq<Row>, key: Key, name: string)
    ensures MinutesFor(a + b, key, name) == MinutesFor(a, key, name) + MinutesFor(b, key, name)
    decreases |b|
  {
    if b == [] {
      assert a + b == a;
    } else {
      var init := b[..|b| - 1];
      assert (a + b)[..|a + b| - 1] == a + init;
      MinutesForConcat(a, init, key, name);
    }
  }

  /** The minutes of a label do not depend on the order of the rows. */
  lemma {:induction false} MinutesForPermutation(a: seq<Row>, b: seq<Row>, key: Key, name: string)
    requires multiset(a) == multiset(b)
    ensures MinutesFor(a, key, name) == MinutesFor(b, key, name)
    decreases |a|
  {
    if a == [] {
      assert |b| == |multiset(b)| == 0;
    } else {
      var init, last := a[..|a| - 1], a[|a| - 1];
      assert a == init + [last];
      assert multiset(init) == multiset(a) - multiset{last};
      assert last in multiset(b);
      var i :| 0 <= i < |b| && b[i] == last;
      var rest := RemoveAt(b, i, key, name);
      MinutesForPermutation(init, rest, key, name);
      MinutesForConcat(init, [last], key, name);
    }
  }

  /** `b` without its element at `i`, and how the minutes of `name` split over the two parts. */
  lemma RemoveAt(b: seq<Row>, i: nat, key: Key, name: string) returns (rest: seq<Row>)
    requires i < |b|
    ensures multiset(rest) == multiset(b) - multiset{b[i]}
    ensures MinutesFor(b, key, name) == MinutesFor(rest, key, name) + MinutesFor([b[i]], key, name)
  {
    var left, right := b[..i], b[i + 1..];
    rest := left + right;
    assert b == left + [b[i]] + right;
    assert multiset(b) == multiset(left) + multiset{b[i]} + multiset(right);
    MinutesForConcat(left, right, key, name);
    MinutesForConcat(left + [b[i]], right, key, name);
    MinutesForConcat(left, [b[i]], key, name);
  }

  /** Reordering the history table leaves every subject's and topic's total unchanged. */
  lemma GroupTotalsPermutation(a: seq<Row>, b: seq<Row>, key: Key)
    requires multiset(a) == multiset(b)
    ensures Labels(GroupTotals(a, key)) == Labels(GroupTotals(b, key))
    ensures forall l :: Lookup(GroupTotals(a, key), l) == Lookup(GroupTotals(b, key), l)
  {
    assert forall r :: r in a <==> r in b by {
      forall r ensures r in a <==> r in b {
        assert r in a <==> r in multiset(a);
        assert r in b <==> r in multiset(b);
      }
    }
    forall l ensures Lookup(GroupTotals(a, key), l) == Lookup(GroupTotals(b, key), l) {
      MinutesForPermutation(a, b, key, l);
    }
  }

  /** In a rollup whose labels are distinct, each entry is what `Lookup` finds for its label. */
  lemma {:induction false} LookupEntry(groups: seq<Group>, i: nat)
    requires DistinctLabels(groups) && i < |groups|
    ensures Lookup(groups, groups[i].name) == groups[i].minutes
  {
    if i > 0 {
      assert groups[0].name != groups[i].name;
      assert groups[1..][i - 1] == groups[i];
      DistinctCons(groups[0], groups[1..]);
      assert groups == [groups[0]] + groups[1..];
      LookupEntry(groups[1..], i - 1);
    }
  }

  /** Each entry of the rollup holds the minutes of exactly the rows with its label. */
  lemma GroupEntry(rows: seq<Row>, key: Key, i: nat)
    requires i < |GroupTotals(rows, key)|
    ensures GroupTotals(rows, key)[i].minutes == MinutesFor(rows, key, GroupTotals(rows, key)[i].name)
  {
    LookupEntry(GroupTotals(rows, key), i);
  }

  // ----- Sorting by value: `sort_values(ascending=True)` -----

  predicate Ascending(groups: seq<Group>)
  {
    forall i, j :: 0 <= i < j < |groups| ==> groups[i].minutes <= groups[j].minutes
  }

  lemma AscendingCons(g: Group, rest: seq<Group>)
    requires Ascending(rest) && (rest != [] ==> g.minutes <= rest[0].minutes)
    ensures Ascending([g] + rest)
  {
    var r := [g] + rest;
    forall i, j | 0 <= i < j < |r| ensures r[i].minutes <= r[j].minutes {
      if i == 0 && j > 1 {
        assert r[j] == rest[j - 1] && rest[0].minutes <= rest[j - 1].minutes;
      }
    }
  }

  function Insert(g: Group, sorted: seq<Group>): (r: seq<Group>)
    requires Ascending(sorted)
    ensures Ascending(r)
    ensures multiset(r) == multiset(sorted) + multiset{g}
    ensures |r| == |sorted| + 1
    ensures r[0] == g || (sorted != [] && r[0] == sorted[0])
  {
    if sorted == [] || g.minutes <= sorted[0].minutes then
      AscendingCons(g, sorted);
      [g] + sorted
    else
      var rest := Insert(g, sorted[1..]);
      assert sorted == [sorted[0]] + sorted[1..];
      assert sorted[0].minutes <= rest[0].minutes;
      AscendingCons(sorted[0], rest);
      assert multiset([sorted[0]] + rest) == multiset{sorted[0]} + multiset(rest);
      assert multiset(sorted) == multiset{sorted[0]} + multiset(sorted[1..]);
      [sorted[0]] + rest
  }

  /**
   * One ascending order of the entries; how entries with equal minutes are
   * ordered is not part of what the dashboard promises.
   */
  function SortByMinutes(groups: seq<Group>): (r: seq<Group>)
    ensures Ascending(r)
    ensures multiset(r) == multiset(groups)
    ensures |r| == |groups|
  {
    if groups == [] then []
    else
      assert groups == [groups[0]] + groups[1..];
      Insert(groups[0], SortByMinutes(groups[1..]))
  }

  /** Time by subject (tracker.py line 167): the rollup by subject in ascending order. */
  function SubjectStats(rows: seq<Row>): (r: seq<Group>)
    ensures Ascending(r)
    ensures multiset(r) == multiset(GroupTotals(rows, BySubject))
  {
    SortByMinutes(GroupTotals(rows, BySubject))
  }

  /**
   * The most studied subject (tracker.py line 171): a subject of the table
   * whose total is the largest. Which of several equal totals wins is left open.
   */
  function MostStudied(rows: seq<Row>): (subject: string)
    requires rows != []
    ensures subject in RowLabels(rows, BySubject)
    ensures forall r :: r in rows ==> MinutesFor(rows, BySubject, r.subject) <= MinutesFor(rows, BySubject, subject)
  {
    var stats := SubjectStats(rows);
    var k := StatsArgMax(rows, stats);
    stats[k].name
  }

  /** The least studied subject (tracker.py line 172): a subject whose total is the smallest. */
  function LeastStudied(rows: seq<Row>): (subject: string)
    requires rows != []
    ensures subject in RowLabels(rows, BySubject)
    ensures forall r :: r in rows ==> MinutesFor(rows, BySubject, subject) <= MinutesFor(rows, BySubject, r.subject)
  {
    var stats := SubjectStats(rows);
    var k := StatsArgMin(rows, stats);
    stats[k].name
  }

  /** Every subject of the table has its entry in `stats`, carrying its total. */
  lemma StatsCover(rows: seq<Row>, stats: seq<Group>, r: Row)
    requires multiset(stats) == multiset(GroupTotals(rows, BySubject)) && r in rows
    ensures exists j :: 0 <= j < |stats| && stats[j].name == r.subject
                        && stats[j].minutes == MinutesFor(rows, BySubject, r.subject)
  {
    var groups := GroupTotals(rows, BySubject);
    assert r.subject in RowLabels(rows, BySubject);
    var g :| g in groups && g.name == r.subject;
    var i :| 0 <= i < |groups| && groups[i] == g;
    GroupEntry(rows, BySubject, i);
    assert g in multiset(stats);
    var j :| 0 <= j < |stats| && stats[j] == g;
  }

  /** The entries of `stats` are entries of the rollup, with their totals. */
  lemma StatsEntry(rows: seq<Row>, stats: seq<Group>, k: nat)
    requires multiset(stats) == multiset(GroupTotals(rows, BySubject)) && k < |stats|
    ensures stats[k].name in RowLabels(rows, BySubject)
    ensures stats[k].minutes == MinutesFor(rows, BySubject, stats[k].name)
  {
    var groups := GroupTotals(rows, BySubject);
    assert stats[k] in multiset(groups);
    var i :| 0 <= i < |groups| && groups[i] == stats[k];
    GroupEntry(rows, BySubject, i);
  }

  function StatsArgMax(rows: seq<Row>, stats: seq<Group>): (k: nat)
    requires rows != [] && multiset(stats) == multiset(GroupTotals(rows, BySubject))
    ensures k < |stats|
    ensures stats[k].name in RowLabels(rows, BySubject)
    ensures forall r :: r in rows ==>
      MinutesFor(rows, BySubject, r.subject) <= MinutesFor(rows, BySubject, stats[k].name)
  {
    StatsCover(rows, stats, rows[0]);
    var xs := seq(|stats|, i requires 0 <= i < |stats| => stats[i].minutes);
    assert forall i :: 0 <= i < |stats| ==> xs[i] == stats[i].minutes;
    var k := FirstArgMax(xs);
    StatsEntry(rows, stats, k);
    assert forall r :: r in rows ==>
      MinutesFor(rows, BySubject, r.subject) <= MinutesFor(rows, BySubject, stats[k].name) by {
      forall r | r in rows
        ensures MinutesFor(rows, BySubject, r.subject) <= MinutesFor(rows, BySubject, stats[k].name)
      {
        StatsCover(rows, stats, r);
      }
    }
    k
  }

  function StatsArgMin(rows: seq<Row>, stats: seq<Group>): (k: nat)
    requires rows != [] && multiset(stats) == multiset(GroupTotals(rows, BySubject))
    ensures k < |stats|
    ensures stats[k].name in RowLabels(rows, BySubject)
    ensures forall r :: r in rows ==>
      MinutesFor(rows, BySubject, stats[k].name) <= MinutesFor(rows, BySubject, r.subject)
  {
    StatsCover(rows, stats, rows[0]);
    var xs := seq(|stats|, i requires 0 <= i < |stats| => stats[i].minutes);
    assert forall i :: 0 <= i < |stats| ==> xs[i] == stats[i].minutes;
    var k := FirstArgMin(xs);
    StatsEntry(rows, stats, k);
    assert forall r :: r in rows ==>
      MinutesFor(rows, BySubject, stats[k].name) <= MinutesFor(rows, BySubject, r.subject) by {
      forall r | r in rows
        ensures MinutesFor(rows, BySubject, stats[k].name) <= MinutesFor(rows, BySubject, r.subject)
      {
        StatsCover(rows, stats, r);
      }
    }
    k
  }

  // ----- The topic view: `tail(5)` of the ascending rollup by topic -----

  const TOP_TOPICS := 5

  /**
   * Time by topic (tracker.py line 177): the five topics with the largest
   * totals, in ascending order; no topic left out has a larger total than
   * one shown.
   */
  function TopTopics(rows: seq<Row>): (r: seq<Group>)
    ensures var groups := GroupTotals(rows, ByTopic);
      && |r| == (if |groups| < TOP_TOPICS then |groups| else TOP_TOPICS)
      && Ascending(r)
      && multiset(r) <= multiset(groups)
      && (forall g :: g in groups && g !in r ==>
            forall j :: 0 <= j < |r| ==> g.minutes <= r[j].minutes)
  {
    var groups := GroupTotals(rows, ByTopic);
    var sorted := SortByMinutes(groups);
    assert |sorted| == |groups|;
    var cut := if |sorted| <= TOP_TOPICS then 0 else |sorted| - TOP_TOPICS;
    var r := sorted[cut..];
    TailOfSorted(sorted, cut);
    SameElements(groups, sorted);
    r
  }

  lemma SameElements(a: seq<Group>, b: seq<Group>)
    requires multiset(a) == multiset(b)
    ensures forall g :: g in a <==> g in b
  {
    forall g ensures g in a <==> g in b {
      assert g in a <==> g in multiset(a);
      assert g in b <==> g in multiset(b);
    }
  }

  /** A suffix of an ascending sequence: every element before it is at most every element in it. */
  lemma TailOfSorted(sorted: seq<Group>, cut: nat)
    requires Ascending(sorted) && cut <= |sorted|
    ensures Ascending(sorted[cut..])
    ensures multiset(sorted[cut..]) <= multiset(sorted)
    ensures forall g :: g in sorted && g !in sorted[cut..] ==>
      forall j :: 0 <= j < |sorted[cut..]| ==> g.minutes <= sorted[cut..][j].minutes
  {
    var r := sorted[cut..];
    assert sorted == sorted[..cut] + r;
    assert multiset(sorted) == multiset(sorted[..cut]) + multiset(r);
    forall g | g in sorted && g !in r
      ensures forall j :: 0 <= j < |r| ==> g.minutes <= r[j].minutes
    {
      var i :| 0 <= i < |sorted| && sorted[i] == g;
      forall j | 0 <= j < |r| ensures g.minutes <= r[j].minutes {
        assert r[j] == sorted[cut + j];
      }
    }
  }

  // ----- The whole dashboard -----

  /** What the dashboard shows for a non-empty history table (tracker.py lines 128-179). */
  datatype Report = Report(
    metrics: Metrics,
    longest: Row,
    shortest: Row,
    mostDistracted: Option<Row>,
    subjects: seq<Group>,
    mostStudied: string,
    leastStudied: string,
    topics: seq<Group>)

  /** The dashboard tab: nothing but a notice when the table is empty (tracker.py lines 128 and 185-186). */
  function Analytics(rows: seq<Row>): (r: Option<Report>)
    ensures r.None? <==> rows == []
    ensures r.Some? ==>
      && r.value.metrics.sessions == |rows|
      && r.value.longest in rows && r.value.shortest in rows
      && r.value.shortest.minutes <= r.value.metrics.average <= r.value.longest.minutes
      && (r.value.mostDistracted.Some? <==> TotalBreaks(rows) > 0)
      && (r.value.mostDistracted.Some? ==> r.value.mostDistracted.value in rows)
      && r.value.mostStudied in RowLabels(rows, BySubject)
      && r.value.leastStudied in RowLabels(rows, BySubject)
      && |r.value.topics| <= TOP_TOPICS
  {
    if rows == [] then None
    else
      AverageBetweenRecords(rows);
      var distracted := MostDistracted(rows);
      Some(Report(
        Summary(rows),
        rows[Longest(rows)],
        rows[Shortest(rows)],
        if distracted.Some? then Some(rows[distracted.value]) else None,
        SubjectStats(rows),
        MostStudied(rows),
        LeastStudied(rows),
        TopTopics(rows)))
  }
}
