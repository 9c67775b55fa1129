/** The pure parts of the console output: the fixed order of analyst
    sections, the split of backtest rows into ticker and summary rows, and
    the colour of a trade action. */
module Display {
  import opened Types
  import opened Text

  /** The position of an analyst's display name in the report order; names
      outside the order go last. */
  function AnalystOrder(name: string): (k: nat)
    ensures k == 0 <==> name == "Technical Analysis"
    ensures k == 1 <==> name == "Risk Management"
    ensures k == 999 <==> name != "Technical Analysis" && name != "Risk Management"
  {
    if name == "Technical Analysis" then 0
    else if name == "Risk Management" then 1
    else 999
  }

  /** The sort key of `sort_analyst_signals`: the rank of the entry's
      display name. */
  function Key<V>(entry: (string, V)): (k: nat)
    ensures k == 0 || k == 1 || k == 999
    ensures k == 0 <==> entry.0 == "Technical Analysis"
    ensures k == 1 <==> entry.0 == "Risk Management"
  {
    AnalystOrder(entry.0)
  }

  predicate SortedBy<T>(s: seq<T>, key: T -> nat)
  {
    forall i, j :: 0 <= i < j < |s| ==> key(s[i]) <= key(s[j])
  }

  /** The elements of `s` whose key is `k`, in their order in `s`. */
  function Bucket<T>(s: seq<T>, key: T -> nat, k: nat): (b: seq<T>)
    ensures |b| <= |s|
  {
    if s == [] then []
    else Bucket(s[..|s| - 1], key, k) + (if key(s[|s| - 1]) == k then [s[|s| - 1]] else [])
  }

  /** `x` placed after every element of `t` whose key is not larger. */
  function Insert<T>(t: seq<T>, x: T, key: T -> nat): (r: seq<T>)
    ensures |r| == |t| + 1
  {
    if t == [] || key(t[|t| - 1]) <= key(x) then t + [x]
    else Insert(t[..|t| - 1], x, key) + [t[|t| - 1]]
  }

  /** Python's `sorted(s, key=key)`, which is stable, as an insertion sort. */
  function SortBy<T>(s: seq<T>, key: T -> nat): (r: seq<T>)
    ensures |r| == |s|
  {
    if s == [] then []
    else Insert(SortBy(s[..|s| - 1], key), s[|s| - 1], key)
  }

  /** `sort_analyst_signals`: the stable sort keyed by the analyst order. */
  function SortAnalystSignals<V>(signals: seq<(string, V)>): (r: seq<(string, V)>)
    ensures |r| == |signals|
  {
    SortBy(signals, Key)
  }

  /** The entries of `s + [x]` with key `k`. */
  lemma BucketSnoc<T>(s: seq<T>, x: T, key: T -> nat, k: nat)
    ensures Bucket(s + [x], key, k) == Bucket(s, key, k) + (if key(x) == k then [x] else [])
  {
    assert (s + [x])[..|s|] == s;
  }

  /** The entries of a concatenation with key `k`: those of each part, in order. */
  lemma {:induction false} BucketAppend<T>(a: seq<T>, b: seq<T>, key: T -> nat, k: nat)
    ensures Bucket(a + b, key, k) == Bucket(a, key, k) + Bucket(b, key, k)
    decreases |b|
  {
    if b == [] {
      assert a + b == a;
    } else {
      var b' := b[..|b| - 1];
      var x := b[|b| - 1];
      var e := if key(x) == k then [x] else [];
      assert b == b' + [x];
      assert a + b == (a + b') + [x];
      calc {
        Bucket(a + b, key, k);
        { BucketSnoc(a + b', x, key, k); }
        Bucket(a + b', key, k) + e;
        { BucketAppend(a, b', key, k); }
        (Bucket(a, key, k) + Bucket(b', key, k)) + e;
        Bucket(a, key, k) + (Bucket(b', key, k) + e);
        { BucketSnoc(b', x, key, k); }
        Bucket(a, key, k) + Bucket(b, key, k);
      }
    }
  }

  /** No key in `s` exceeds `m`, stated element by element from the back. */
  predicate KeysAtMost<T>(s: seq<T>, key: T -> nat, m: nat)
  {
    s == [] || (KeysAtMost(s[..|s| - 1], key, m) && key(s[|s| - 1]) <= m)
  }

  lemma {:induction false} KeysAtMostFromBound<T>(s: seq<T>, key: T -> nat, m: nat)
    requires forall i :: 0 <= i < |s| ==> key(s[i]) <= m
    ensures KeysAtMost(s, key, m)
    decreases |s|
  {
    if s != [] {
      KeysAtMostFromBound(s[..|s| - 1], key, m);
    }
  }

  lemma {:induction false} KeysAtMostBound<T>(s: seq<T>, key: T -> nat, m: nat)
    requires KeysAtMost(s, key, m)
    ensures forall i :: 0 <= i < |s| ==> key(s[i]) <= m
    decreases |s|
  {
    if s != [] {
      var init := s[..|s| - 1];
      KeysAtMostBound(init, key, m);
      assert forall i :: 0 <= i < |init| ==> s[i] == init[i];
    }
  }

  lemma {:induction false} KeysAtMostWeaken<T>(s: seq<T>, key: T -> nat, m: nat, n: nat)
    requires KeysAtMost(s, key, m) && m <= n
    ensures KeysAtMost(s, key, n)
    decreases |s|
  {
    if s != [] {
      KeysAtMostWeaken(s[..|s| - 1], key, m, n);
    }
  }

  /** Inserting an element under the bound keeps every key under the bound. */
  lemma {:induction false} InsertAtMost<T>(t: seq<T>, x: T, key: T -> nat, m: nat)
    requires KeysAtMost(t, key, m) && key(x) <= m
    ensures KeysAtMost(Insert(t, x, key), key, m)
    decreases |t|
  {
    if t == [] || key(t[|t| - 1]) <= key(x) {
      assert (t + [x])[..|t|] == t;
    } else {
      var t' := t[..|t| - 1];
      InsertAtMost(t', x, key, m);
      var r := Insert(t', x, key) + [t[|t| - 1]];
      assert r[..|r| - 1] == Insert(t', x, key);
    }
  }

  /** Appending an element no smaller than every key keeps the order. */
  lemma SortedSnoc<T>(r: seq<T>, x: T, key: T -> nat)
    requires SortedBy(r, key) && KeysAtMost(r, key, key(x))
    ensures SortedBy(r + [x], key)
  {
    KeysAtMostBound(r, key, key(x));
  }

  /** Below a sorted sequence's last key lie all of its keys. */
  lemma SortedAtMostLast<T>(t: seq<T>, key: T -> nat)
    requires t != [] && SortedBy(t, key)
    ensures KeysAtMost(t, key, key(t[|t| - 1]))
  {
    KeysAtMostFromBound(t, key, key(t[|t| - 1]));
  }

  lemma {:induction false} InsertSorted<T>(t: seq<T>, x: T, key: T -> nat)
    requires SortedBy(t, key)
    ensures SortedBy(Insert(t, x, key), key)
    decreases |t|
  {
    if t == [] {
      assert Insert(t, x, key) == [x];
    } else if key(t[|t| - 1]) <= key(x) {
      SortedAtMostLast(t, key);
      KeysAtMostWeaken(t, key, key(t[|t| - 1]), key(x));
      SortedSnoc(t, x, key);
    } else {
      var t' := t[..|t| - 1];
      var last := t[|t| - 1];
      assert SortedBy(t', key);
      InsertSorted(t', x, key);
      SortedAtMostLast(t, key);
      assert KeysAtMost(t', key, key(last));
      InsertAtMost(t', x, key, key(last));
      SortedSnoc(Insert(t', x, key), last, key);
    }
  }

  lemma {:induction false} InsertPermutes<T>(t: seq<T>, x: T, key: T -> nat)
    ensures multiset(Insert(t, x, key)) == multiset(t) + multiset{x}
    decreases |t|
  {
    if t != [] && key(t[|t| - 1]) > key(x) {
      var t' := t[..|t| - 1];
      InsertPermutes(t', x, key);
      assert t == t' + [t[|t| - 1]];
    }
  }

  /** Insertion adds the element to its own key's elements and leaves the
      order within every key unchanged. */
  lemma {:induction false} InsertBuckets<T>(t: seq<T>, x: T, key: T -> nat, k: nat)
    ensures Bucket(Insert(t, x, key), key, k) == Bucket(t, key, k) + (if key(x) == k then [x] else [])
    decreases |t|
  {
    if t == [] || key(t[|t| - 1]) <= key(x) {
      BucketSnoc(t, x, key, k);
    } else {
      var t' := t[..|t| - 1];
      var last := t[|t| - 1];
      InsertBuckets(t', x, key, k);
      BucketSnoc(Insert(t', x, key), last, key, k);
      BucketSnoc(t', last, key, k);
      assert t == t' + [last];
    }
  }

  /** The sort keeps every element, orders by key and keeps the original
      order among elements with equal keys. */
  lemma {:induction false} SortProperties<T>(s: seq<T>, key: T -> nat)
    ensures SortedBy(SortBy(s, key), key)
    ensures multiset(SortBy(s, key)) == multiset(s)
    ensures forall k :: Bucket(SortBy(s, key), key, k) == Bucket(s, key, k)
    decreases |s|
  {
    if s != [] {
      var s' := s[..|s| - 1];
      var last := s[|s| - 1];
      SortProperties(s', key);
      InsertSorted(SortBy(s', key), last, key);
      InsertPermutes(SortBy(s', key), last, key);
      assert s == s' + [last];
      forall k ensures Bucket(SortBy(s, key), key, k) == Bucket(s, key, k) {
        InsertBuckets(SortBy(s', key), last, key, k);
        BucketSnoc(s', last, key, k);
      }
    }
  }

  /** Keys drawn from 0, 1 and 999. */
  ghost predicate ThreeRanks<T(!new)>(key: T -> nat)
  {
    forall x :: key(x) == 0 || key(x) == 1 || key(x) == 999
  }

  /** The length of the longest prefix of `s` whose keys are at most `m`. */
  function PrefixAtMost<T>(s: seq<T>, key: T -> nat, m: nat): (r: nat)
    ensures r <= |s|
    ensures forall j :: 0 <= j < r ==> key(s[j]) <= m
    ensures r < |s| ==> key(s[r]) > m
  {
    if s == [] || key(s[0]) > m then 0
    else 1 + PrefixAtMost(s[1..], key, m)
  }

  /** In a sequence whose keys all equal `v`, the elements with key `k` are
      all of it or none of it. */
  lemma {:induction false} UniformBucket<T>(s: seq<T>, key: T -> nat, v: nat, k: nat)
    requires forall j :: 0 <= j < |s| ==> key(s[j]) == v
    ensures Bucket(s, key, k) == if k == v then s else []
    decreases |s|
  {
    if s != [] {
      var init := s[..|s| - 1];
      assert forall j :: 0 <= j < |init| ==> init[j] == s[j];
      UniformBucket(init, key, v, k);
    }
  }

  /** The entries with key `k` of three runs keyed 0, 1 and 999. */
  lemma RunsBucket<T>(a: seq<T>, b: seq<T>, c: seq<T>, key: T -> nat, k: nat)
    requires forall j :: 0 <= j < |a| ==> key(a[j]) == 0
    requires forall j :: 0 <= j < |b| ==> key(b[j]) == 1
    requires forall j :: 0 <= j < |c| ==> key(c[j]) == 999
    ensures Bucket(a + b + c, key, k)
      == (if k == 0 then a else []) + (if k == 1 then b else []) + (if k == 999 then c else [])
  {
    BucketAppend(a + b, c, key, k);
    BucketAppend(a, b, key, k);
    UniformBucket(a, key, 0, k);
    UniformBucket(b, key, 1, k);
    UniformBucket(c, key, 999, k);
  }

  /** The buckets of three uniform runs keyed 0, 1 and 999 are the runs. */
  lemma GroupBuckets<T>(a: seq<T>, b: seq<T>, c: seq<T>, key: T -> nat)
    requires forall j :: 0 <= j < |a| ==> key(a[j]) == 0
    requires forall j :: 0 <= j < |b| ==> key(b[j]) == 1
    requires forall j :: 0 <= j < |c| ==> key(c[j]) == 999
    ensures Bucket(a + b + c, key, 0) == a
    ensures Bucket(a + b + c, key, 1) == b
    ensures Bucket(a + b + c, key, 999) == c
  {
    RunsBucket(a, b, c, key, 0);
    assert a + [] + [] == a;
    RunsBucket(a, b, c, key, 1);
    assert [] + b + [] == b;
    RunsBucket(a, b, c, key, 999);
    assert [] + [] + c == c;
  }

  /** A sequence sorted by a three-valued key is its rank-0 elements, then
      its rank-1 elements, then its rank-999 elements. */
  lemma SortedIsBuckets<T(!new)>(s: seq<T>, key: T -> nat)
    requires ThreeRanks(key) && SortedBy(s, key)
    ensures s == Bucket(s, key, 0) + Bucket(s, key, 1) + Bucket(s, key, 999)
  {
    var p := PrefixAtMost(s, key, 0);
    var q := PrefixAtMost(s, key, 1);
    assert p <= q;
    var a, b, c := s[..p], s[p..q], s[q..];
    assert forall j :: 0 <= j < |b| ==> key(b[j]) == 1 by {
      forall j | 0 <= j < |b| ensures key(b[j]) == 1 {
        assert b[j] == s[p + j] && key(s[p]) <= key(s[p + j]);
      }
    }
    assert forall j :: 0 <= j < |c| ==> key(c[j]) == 999 by {
      forall j | 0 <= j < |c| ensures key(c[j]) == 999 {
        assert c[j] == s[q + j] && key(s[q]) <= key(s[q + j]);
      }
    }
    assert s == a + b + c;
    GroupBuckets(a, b, c, key);
  }

  /** The report order: every technical analysis entry, then every risk
      management entry, then the rest, each group in its original order. */
  lemma SortIsGrouping<V(!new)>(signals: seq<(string, V)>)
    ensures SortAnalystSignals(signals)
      == Bucket(signals, Key, 0) + Bucket(signals, Key, 1) + Bucket(signals, Key, 999)
  {
    SortProperties(signals, Key);
    SortedIsBuckets(SortBy(signals, Key), Key);
  }

  /** The analyst sort returns a permutation of its input, ordered by rank,
      and stable within each analyst. */
  lemma SortAnalystSignalsProperties<V>(signals: seq<(string, V)>)
    ensures multiset(SortAnalystSignals(signals)) == multiset(signals)
    ensures forall i, j :: 0 <= i < j < |signals| ==>
      Key(SortAnalystSignals(signals)[i]) <= Key(SortAnalystSignals(signals)[j])
    ensures forall k :: Bucket(SortAnalystSignals(signals), Key, k) == Bucket(signals, Key, k)
  {
    SortProperties(signals, Key);
  }

  /** A table cell: a string, or any other value. */
  datatype Cell = StrCell(text: string) | OtherCell

  type Row = seq<Cell>

  const SummaryMarker: string := "PORTFOLIO SUMMARY"

  /** The row's second cell is a string that mentions the portfolio summary.
      The ensures records what a match implies: only a string cell at least
      as long as the marker can contain it. */
  predicate IsSummary(row: Row)
    requires |row| >= 2
    ensures IsSummary(row) ==> row[1].StrCell? && |row[1].text| >= |SummaryMarker|
  {
    row[1].StrCell? && Contains(row[1].text, SummaryMarker)
  }

  predicate AllWide(rows: seq<Row>)
  {
    forall i :: 0 <= i < |rows| ==> |rows[i]| >= 2
  }

  function SummaryRows(rows: seq<Row>): (r: seq<Row>)
    requires AllWide(rows)
    ensures forall i :: 0 <= i < |r| ==> |r[i]| >= 2 && IsSummary(r[i])
  {
    if rows == [] then []
    else
      var last := rows[|rows| - 1];
      SummaryRows(rows[..|rows| - 1]) + (if IsSummary(last) then [last] else [])
  }

  function TickerRows(rows: seq<Row>): (r: seq<Row>)
    requires AllWide(rows)
    ensures forall i :: 0 <= i < |r| ==> |r[i]| >= 2 && !IsSummary(r[i])
  {
    if rows == [] then []
    else
      var last := rows[|rows| - 1];
      TickerRows(rows[..|rows| - 1]) + (if IsSummary(last) then [] else [last])
  }

  /** The split loses and invents no row. */
  lemma {:induction false} SplitIsPartition(rows: seq<Row>)
    requires AllWide(rows)
    ensures |SummaryRows(rows)| + |TickerRows(rows)| == |rows|
    ensures multiset(SummaryRows(rows)) + multiset(TickerRows(rows)) == multiset(rows)
    decreases |rows|
  {
    if rows != [] {
      var i := |rows| - 1;
      assert rows[..i + 1] == rows;
      PartitionStep(rows, i);
      SplitIsPartition(rows[..i]);
    }
  }

  /** One more wide row adds itself to exactly one of the two filters. */
  lemma PartitionStep(rows: seq<Row>, i: nat)
    requires i < |rows| && AllWide(rows[..i]) && |rows[i]| >= 2
    ensures AllWide(rows[..i + 1])
    ensures multiset(rows[..i + 1]) == multiset(rows[..i]) + multiset{rows[i]}
    ensures multiset(SummaryRows(rows[..i + 1])) + multiset(TickerRows(rows[..i + 1]))
      == multiset(SummaryRows(rows[..i])) + multiset(TickerRows(rows[..i])) + multiset{rows[i]}
    ensures |SummaryRows(rows[..i + 1])| + |TickerRows(rows[..i + 1])|
      == |SummaryRows(rows[..i])| + |TickerRows(rows[..i])| + 1
  {
    var x := rows[i];
    SplitStep(rows, i);
    assert rows[..i + 1] == rows[..i] + [x];
    var s0, t0 := SummaryRows(rows[..i]), TickerRows(rows[..i]);
    if IsSummary(x) {
      assert SummaryRows(rows[..i + 1]) == s0 + [x];
      assert TickerRows(rows[..i + 1]) == t0 by {
        assert t0 + [] == t0;
      }
    } else {
      assert SummaryRows(rows[..i + 1]) == s0 by {
        assert s0 + [] == s0;
      }
      assert TickerRows(rows[..i + 1]) == t0 + [x];
    }
  }

  /** One more wide row extends exactly one of the two filters. */
  lemma SplitStep(rows: seq<Row>, i: nat)
    requires i < |rows| && AllWide(rows[..i]) && |rows[i]| >= 2
    ensures AllWide(rows[..i + 1])
    ensures SummaryRows(rows[..i + 1]) == SummaryRows(rows[..i]) + (if IsSummary(rows[i]) then [rows[i]] else [])
    ensures TickerRows(rows[..i + 1]) == TickerRows(rows[..i]) + (if IsSummary(rows[i]) then [] else [rows[i]])
  {
    assert rows[..i + 1] == rows[..i] + [rows[i]];
    assert rows[..i + 1][..i] == rows[..i];
  }

  datatype RowError = IndexError(row: nat)  // a row with fewer than two cells

  datatype RowSplit = RowSplit(tickerRows: seq<Row>, summaryRows: seq<Row>)

  /** The split loop of `print_backtest_results`: it stops at the first row
      too short to have a second cell. */
  method SplitRows(tableRows: seq<Row>) returns (r: Result<RowSplit, RowError>)
    ensures r.Ok? <==> AllWide(tableRows)
    ensures r.Err? ==>
      r.error.row < |tableRows| && |tableRows[r.error.row]| < 2 && AllWide(tableRows[..r.error.row])
    ensures r.Ok? ==> r.value.summaryRows == SummaryRows(tableRows) && r.value.tickerRows == TickerRows(tableRows)
  {
    var tickerRows: seq<Row> := [];
    var summaryRows: seq<Row> := [];
    for i := 0 to |tableRows|
      invariant AllWide(tableRows[..i])
      invariant summaryRows == SummaryRows(tableRows[..i]) && tickerRows == TickerRows(tableRows[..i])
    {
      var row := tableRows[i];
      if |row| < 2 {
        return Err(IndexError(i));
      }
      SplitStep(tableRows, i);
      if IsSummary(row) {
        summaryRows := summaryRows + [row];
      } else {
        tickerRows := tickerRows + [row];
      }
    }
    assert tableRows[..|tableRows|] == tableRows;
    r := Ok(RowSplit(tickerRows, summaryRows));
  }

  datatype Colour = Green | Red | Yellow | White

  /** The colour of an action in the backtest table, looked up after
      upper-casing the action. */
  function ActionColor(action: string): (c: Colour)
    ensures c == Green <==> Upper(action) == "BUY" || Upper(action) == "COVER"
    ensures c == Red <==> Upper(action) == "SELL" || Upper(action) == "SHORT"
    ensures c == Yellow <==> Upper(action) == "HOLD"
  {
    var key := Upper(action);
    if key == "BUY" || key == "COVER" then Green
    else if key == "SELL" || key == "SHORT" then Red
    else if key == "HOLD" then Yellow
    else White
  }

  /** The lookup ignores the case of the action. */
  lemma ActionColorIgnoresCase(action: string)
    ensures ActionColor(Upper(action)) == ActionColor(action)
  {
    UpperIdempotent(action);
  }

  /** The name a decision's action carries. */
  function ActionName(a: TradeAction): string
  {
    match a
    case Buy => "buy"
    case Sell => "sell"
    case Short => "short"
    case Cover => "cover"
    case Hold => "hold"
  }

  /** Opening or closing long and short positions is green or red as it
      adds or removes exposure to the price rising, and holding is yellow;
      no action of a decision is shown white. */
  lemma ActionColours(a: TradeAction)
    ensures ActionColor(ActionName(a)) == match a
      case Buy => Green
      case Cover => Green
      case Sell => Red
      case Short => Red
      case Hold => Yellow
  {
    var name := ActionName(a);
    var upper := Upper(name);
    assert |upper| == |name|;
    match a
    case Buy => assert upper == "BUY";
    case Cover => assert upper == "COVER";
    case Sell => assert upper == "SELL";
    case Short => assert upper == "SHORT";
    case Hold => assert upper == "HOLD";
  }
}
