/**
 Printing a VID or FID table as intervals and reading such intervals back (ctl_main.c:1884-2143), at the level of
 numbers: a printed line is a value and the items after the colon.
 */
module IntervalTables {

  /** An item of a line: one index, two indices in any order, or `*`. */
  datatype Item = Single(first: int) | Range(first: int, last: int) | Star

  datatype Line = Line(value: int, items: seq<Item>)

  /** The value that no table entry has. */
  const NONE := 0xFFFF

  function Low(item: Item): int {
    match item case Single(a) => a case Range(a, b) => if a > b then b else a case Star => 0
  }

  function High(item: Item): int {
    match item case Single(a) => a case Range(a, b) => if a > b then a else b case Star => 0
  }

  predicate Covers(item: Item, i: int) { !item.Star? && Low(item) <= i <= High(item) }

  predicate Covered(items: seq<Item>, i: int) { exists k :: 0 <= k < |items| && Covers(items[k], i) }

  // ---- What a printed line says ---------------------------------------------------------------------

  /** An item as it is printed, inside `low..high`. */
  predicate Proper(item: Item, low: int, high: int) {
    match item
    case Single(a) => low <= a <= high
    case Range(a, b) => low <= a < b <= high
    case Star => false
  }

  /** The items are ascending and cannot be joined: between two of them there is an index that neither covers. */
  predicate Apart(items: seq<Item>) {
    forall j, k :: 0 <= j < k < |items| ==> High(items[j]) + 1 < Low(items[k])
  }

  /** The items are exactly the maximal runs of `value` between `low` and `high`. */
  predicate Runs(items: seq<Item>, table: seq<int>, low: int, high: int, value: int)
    requires 0 <= low && high < |table|
  {
    && (forall k :: 0 <= k < |items| ==> Proper(items[k], low, high)) && Apart(items)
    && (forall i :: low <= i <= high ==> (table[i] == value <==> Covered(items, i)))
  }

  /** The lines show the whole table: ascending values, each with its runs, and no value is missing. */
  predicate Shows(lines: seq<Line>, table: seq<int>, low: int, high: int, maxValue: int)
    requires 0 <= low && high < |table|
  {
    && (forall k :: 0 <= k < |lines| ==>
      0 <= lines[k].value <= maxValue && Runs(lines[k].items, table, low, high, lines[k].value))
    && (forall j, k :: 0 <= j < k < |lines| ==> lines[j].value < lines[k].value)
    && (forall i :: low <= i <= high && table[i] <= maxValue ==>
      exists k :: 0 <= k < |lines| && lines[k].value == table[i])
  }

  lemma CoveredByMore(items: seq<Item>, item: Item, i: int)
    ensures Covered(items + [item], i) <==> Covered(items, i) || Covers(item, i)
  {
    var more := items + [item];
    if Covered(items, i) {
      var k :| 0 <= k < |items| && Covers(items[k], i);
      assert Covers(more[k], i);
    }
    if Covers(item, i) { assert Covers(more[|items|], i); }
    if Covered(more, i) && !Covers(item, i) {
      var k :| 0 <= k < |more| && Covers(more[k], i);
      assert Covers(items[k], i);
    }
  }

  // ---- Printing -------------------------------------------------------------------------------------

  /** The smallest entry. */
  method Smallest(table: array<int>, low: nat, high: nat) returns (m: int)
    requires low <= high < table.Length
    ensures exists i :: low <= i <= high && table[i] == m
    ensures forall i :: low <= i <= high ==> m <= table[i]
  {
    m := table[low];
    var i := low;
    while i <= high
      invariant low <= i <= high + 1 && exists j :: low <= j <= high && table[j] == m
      invariant forall j :: low <= j < i ==> m <= table[j]
    {
      if m > table[i] { m := table[i]; }
      i := i + 1;
    }
  }

  /** One line: the runs of `value`, whose entries are overwritten on the way. */
  method ShowValue(table: array<int>, low: nat, high: nat, value: int) returns (items: seq<Item>)
    requires low <= high && table.Length == high + 2 && table[high + 1] == NONE && value != NONE
    modifies table
    ensures Runs(items, old(table[..]), low, high, value)
    ensures forall i :: 0 <= i < table.Length ==>
      table[i] == if low <= i <= high && old(table[i]) == value then NONE else old(table[i])
  {
    ghost var t := table[..];
    items := [];
    var i, count := low, 0;
    while i <= high + 1
      invariant low <= i <= high + 2 && 0 <= count <= i - low && (i == high + 2 ==> count == 0)
      invariant forall j :: 0 <= j < table.Length ==> table[j] == if low <= j < i && t[j] == value then NONE else t[j]
      invariant forall j :: i - count <= j < i ==> t[j] == value
      invariant i - count > low ==> i - count - 1 > high || t[i - count - 1] != value
      invariant forall k :: 0 <= k < |items| ==>
        Proper(items[k], low, high) && High(items[k]) + 1 < i - count + (if count == 0 then 1 else 0)
      invariant Apart(items)
      invariant forall j :: low <= j < i - count && j <= high ==> (t[j] == value <==> Covered(items, j))
    {
      if value != table[i] {
        if count != 0 {
          var item := if 1 < count then Range(i - count, i - 1) else Single(i - count);
          forall j
            ensures Covered(items + [item], j) <==>
              Covered(items, j) || Covers(item, j) { CoveredByMore(items, item, j); }
          assert forall j :: j >= i - count ==> !Covered(items, j);
          items := items + [item];
          count := 0;
        } else {
          assert forall j :: j >= i ==> !Covered(items, j);
        }
      } else {
        table[i] := NONE;
        count := count + 1;
      }
      i := i + 1;
    }
  }

  /** `do_showvid2fid_fmt` and `do_showfid2mstid_fmt`. */
  method Show(table: array<int>, low: nat, high: nat, maxValue: int) returns (lines: seq<Line>)
    requires low <= high && table.Length == high + 2 && 0 <= maxValue < NONE
    requires forall i :: low <= i <= high ==> 0 <= table[i] <= NONE
    modifies table
    ensures Shows(lines, old(table[..]), low, high, maxValue)
  {
    ghost var t := table[..];
    table[high + 1] := NONE;
    lines := [];
    ghost var done := -1;
    while true
      invariant table[high + 1] == NONE && -1 <= done <= maxValue
      invariant forall i :: low <= i <= high ==> table[i] == if t[i] <= done then NONE else t[i]
      invariant forall k :: 0 <= k < |lines| ==>
        0 <= lines[k].value <= done && lines[k].value <= maxValue && Runs(lines[k].items, t, low, high, lines[k].value)
      invariant forall j, k :: 0 <= j < k < |lines| ==> lines[j].value < lines[k].value
      invariant forall i :: low <= i <= high && t[i] <= done && t[i] <= maxValue ==>
        exists k :: 0 <= k < |lines| && lines[k].value == t[i]
      decreases maxValue - done
    {
      var value := Smallest(table, low, high);
      if value > maxValue { break; }
      ghost var before := table[..];
      var items := ShowValue(table, low, high, value);
      SameRuns(items, before, t, low, high, value);
      ghost var shown := lines;
      lines := lines + [Line(value, items)];
      forall i | low <= i <= high && t[i] <= value ensures exists k :: 0 <= k < |lines| && lines[k].value == t[i] {
        if t[i] <= done {
          var k :| 0 <= k < |shown| && shown[k].value == t[i];
          assert lines[k].value == t[i];
        } else {
          assert before[i] == t[i];
          assert lines[|shown|].value == t[i];
        }
      }
      done := value;
    }
  }

  lemma SameRuns(items: seq<Item>, s: seq<int>, t: seq<int>, low: nat, high: nat, value: int)
    requires high < |s| && high < |t| && Runs(items, s, low, high, value)
    requires forall i :: low <= i <= high ==> (s[i] == value <==> t[i] == value)
    ensures Runs(items, t, low, high, value)
  {
  }

  // ---- Parsing --------------------------------------------------------------------------------------

  /** Is the item one that `ParseList` accepts?  Indices have to lie between `low` and `maxIndex`. */
  predicate Acceptable(item: Item, low: nat, maxIndex: int) {
    item.Star? || (low <= Low(item) && High(item) <= maxIndex)
  }

  /** What an item does to the table; `*` stands for every index without a value. */
  function Assigned(table: seq<int>, item: Item, value: int, low: nat, maxIndex: int, maxValue: int): (r: seq<int>)
    ensures |r| == |table|
  {
    seq(|table|, i requires 0 <= i < |table| =>
        if (if item.Star? then low <= i <= maxIndex && table[i] > maxValue else Covers(item, i)) then value
          else table[i])
  }

  /** Items are taken one after the other until one is not acceptable. */
  function AllAssigned(table: seq<int>, items: seq<Item>, value: int, low: nat, maxIndex: int,
                       maxValue: int): (r: seq<int>)
    ensures |r| == |table|
    decreases |items|
  {
    if items == [] || !Acceptable(items[0], low, maxIndex) then table
    else AllAssigned(Assigned(table, items[0], value, low, maxIndex, maxValue), items[1..], value, low, maxIndex,
        maxValue)
  }

  /** `ParseList` after the value: the cursor goes through the items and fills the array. */
  method ParseList(line: Line, array_: array<int>, low: nat, maxIndex: int, maxValue: int) returns (ok: bool)
    requires 0 <= maxIndex < array_.Length
    modifies array_
    ensures ok ==
        (0 <= line.value <= maxValue && forall k :: 0 <= k < |line.items| ==> Acceptable(line.items[k], low, maxIndex))
    ensures array_[..] == if 0 <= line.value <= maxValue
      then AllAssigned(old(array_[..]), line.items, line.value, low, maxIndex, maxValue)
                          else old(array_[..])
  {
    var value := line.value;
    if value < 0 || value > maxValue { return false; }
    var next := 0;
    while next < |line.items|
      invariant 0 <= next <= |line.items|
      invariant forall k :: 0 <= k < next ==> Acceptable(line.items[k], low, maxIndex)
      invariant AllAssigned(old(array_[..]), line.items, value, low, maxIndex, maxValue)
                == AllAssigned(array_[..], line.items[next..], value, low, maxIndex, maxValue)
    {
      var item := line.items[next];
      ghost var before := array_[..];
      if item.Star? {
        var i := low;
        while i <= maxIndex
          invariant low <= i && array_.Length == |before|
          invariant forall j :: 0 <= j < array_.Length ==>
            array_[j] == if low <= j < i && j <= maxIndex && before[j] > maxValue then value else before[j]
        {
          if array_[i] > maxValue { array_[i] := value; }
          i := i + 1;
        }
      } else {
        var first := item.first;
        var last := if item.Range? then item.last else first;
        if first > maxIndex || first < low || last > maxIndex || last < low { return false; }
        if first > last { first, last := last, first; }
        var i := first;
        while i <= last
          invariant first <= i <= last + 1 && array_.Length == |before|
          invariant forall j :: 0 <= j < array_.Length ==> array_[j] == if first <= j < i then value else before[j]
        {
          array_[i] := value;
          i := i + 1;
        }
      }
      assert array_[..] == Assigned(before, item, value, low, maxIndex, maxValue);
      assert line.items[next..][1..] == line.items[next + 1..];
      next := next + 1;
    }
    return true;
  }

  // ---- Round trip -----------------------------------------------------------------------------------

  /** Proper items, one after the other, put the value exactly where they say. */
  lemma {:induction false} ProperItemsAssign(table: seq<int>, items: seq<Item>, value: int, low: nat, maxIndex: int,
                                             maxValue: int)
    requires forall k :: 0 <= k < |items| ==> Proper(items[k], low, maxIndex)
    ensures forall i :: 0 <= i < |table| ==>
      AllAssigned(table, items, value, low, maxIndex, maxValue)[i] == if Covered(items, i) then value else table[i]
    decreases |items|
  {
    if items != [] {
      var t := Assigned(table, items[0], value, low, maxIndex, maxValue);
      ProperItemsAssign(t, items[1..], value, low, maxIndex, maxValue);
      forall i | 0 <= i < |table|
        ensures AllAssigned(table, items, value, low, maxIndex, maxValue)[i] == if Covered(items, i) then value
          else table[i]
      {
        if Covered(items[1..], i) {
          var k :| 0 <= k < |items[1..]| && Covers(items[1..][k], i);
          assert Covers(items[k + 1], i);
        } else if Covered(items, i) {
          var k :| 0 <= k < |items| && Covers(items[k], i);
          assert k == 0;
        }
      }
    }
  }

  /** All lines, one after the other. */
  function Reread(table: seq<int>, lines: seq<Line>, low: nat, maxIndex: int, maxValue: int): (r: seq<int>)
    ensures |r| == |table|
    decreases |lines|
  {
    if lines == [] then table
    else
      var n := |lines| - 1;
      AllAssigned(Reread(table, lines[..n], low, maxIndex, maxValue), lines[n].items, lines[n].value, low, maxIndex,
          maxValue)
  }

  lemma {:induction false} RereadGives(blank: seq<int>, lines: seq<Line>, table: seq<int>, low: nat, high: int,
                                       maxValue: int)
    requires 0 <= low && high < |table| <= |blank|
    requires forall k :: 0 <= k < |lines| ==> Runs(lines[k].items, table, low, high, lines[k].value)
    requires forall j, k :: 0 <= j < k < |lines| ==> lines[j].value < lines[k].value
    ensures forall i, k :: low <= i <= high && 0 <= k < |lines| && table[i] == lines[k].value ==>
      Reread(blank, lines, low, high, maxValue)[i] == table[i]
    decreases |lines|
  {
    if lines != [] {
      var n := |lines| - 1;
      var before := Reread(blank, lines[..n], low, high, maxValue);
      RereadGives(blank, lines[..n], table, low, high, maxValue);
      ProperItemsAssign(before, lines[n].items, lines[n].value, low, high, maxValue);
      forall i, k | low <= i <= high && 0 <= k < |lines| && table[i] == lines[k].value
        ensures Reread(blank, lines, low, high, maxValue)[i] == table[i]
      {
        if k < n { assert lines[..n][k].value == table[i]; }
      }
    }
  }

  /** Round trip: reading back the lines that show a table rebuilds the table. */
  lemma PrintedTableIsReread(blank: seq<int>, lines: seq<Line>, table: seq<int>, low: nat, high: int, maxValue: int)
    requires high < |table| <= |blank| && Shows(lines, table, low, high, maxValue)
    requires forall i :: low <= i <= high ==> table[i] <= maxValue
    ensures forall i :: low <= i <= high ==> Reread(blank, lines, low, high, maxValue)[i] == table[i]
  {
    RereadGives(blank, lines, table, low, high, maxValue);
  }

  /** And every line is accepted. */
  lemma PrintedLinesAreAccepted(lines: seq<Line>, table: seq<int>, low: nat, high: int, maxValue: int, k: nat, j: nat)
    requires high < |table| && Shows(lines, table, low, high, maxValue) && k < |lines| && j < |lines[k].items|
    ensures 0 <= lines[k].value <= maxValue && Acceptable(lines[k].items[j], low, high)
  {
    assert Proper(lines[k].items[j], low, high);
  }
}
