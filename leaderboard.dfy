/**
 * The Leaderboard screen's table of scores: every added score is pushed and
 * the table re-sorted by value, highest first, and the screen shows the first
 * `DISPLAY_MAX` rows.
 */
module LeaderboardScreen {
  import opened Constants

  /** One line of the table: a player name and a score. */
  datatype Entry = Entry(key: string, value: int)

  /** What one displayed row shows, and the row's vertical position. */
  datatype Row = Row(rank: nat, key: string, value: int, y: real)

  const MARGIN: real := 50.0
  const DISPLAY_MAX: nat := 10

  /** Values never increase along the table. */
  predicate SortedByValue(t: seq<Entry>)
  {
    forall i, j :: 0 <= i < j < |t| ==> t[i].value >= t[j].value
  }

  /** How many leading entries hold a value of at least `v`. */
  function Rank(t: seq<Entry>, v: int): (k: nat)
    ensures k <= |t|
  {
    if t == [] || t[0].value < v then 0 else 1 + Rank(t[1..], v)
  }

  /** Every entry before the rank is at least `v`, and the entry at the rank is below it. */
  lemma {:induction false} RankIsBoundary(t: seq<Entry>, v: int)
    ensures forall i :: 0 <= i < Rank(t, v) ==> t[i].value >= v
    ensures Rank(t, v) < |t| ==> t[Rank(t, v)].value < v
  {
    if t != [] && t[0].value >= v {
      RankIsBoundary(t[1..], v);
      forall i | 0 < i < Rank(t, v)
        ensures t[i].value >= v
      {
        assert t[i] == t[1..][i - 1];
      }
    }
  }

  /**
   * Place `e` after every leading entry whose value is at least `e.value`: the
   * step of a stable sort that brings a pushed element to its place.
   */
  function Insert(t: seq<Entry>, e: Entry): (r: seq<Entry>)
    ensures |r| == |t| + 1
    ensures multiset(r) == multiset(t) + multiset{e}
  {
    var k := Rank(t, e.value);
    assert t == t[..k] + t[k..];
    t[..k] + [e] + t[k..]
  }

  /**
   * `Array.prototype.sort` with the comparator `b.value - a.value`: a stable
   * sort by value, highest first, written as an insertion sort.
   */
  function SortByValue(t: seq<Entry>): (r: seq<Entry>)
    ensures |r| == |t|
    ensures multiset(r) == multiset(t)
  {
    if t == [] then []
    else
      assert t == t[..|t| - 1] + [t[|t| - 1]];
      Insert(SortByValue(t[..|t| - 1]), t[|t| - 1])
  }

  /** Inserting into a sorted table keeps it sorted. */
  lemma {:induction false} InsertSorted(t: seq<Entry>, e: Entry)
    requires SortedByValue(t)
    ensures SortedByValue(Insert(t, e))
  {
    var k := Rank(t, e.value);
    RankIsBoundary(t, e.value);
    var r := Insert(t, e);
    forall i, j | 0 <= i < j < |r|
      ensures r[i].value >= r[j].value
    {
      if j == k {
        assert r[i] == t[i];
      } else if i == k {
        assert r[j] == t[j - 1];
      } else {
        var ti := if i < k then i else i - 1;
        var tj := if j < k then j else j - 1;
        assert r[i] == t[ti] && r[j] == t[tj];
      }
    }
  }

  /** Inserting an entry no larger than every entry appends it. */
  lemma {:induction false} InsertSmallest(t: seq<Entry>, e: Entry)
    requires forall i :: 0 <= i < |t| ==> t[i].value >= e.value
    ensures Insert(t, e) == t + [e]
  {
    RankOfSmallest(t, e.value);
  }

  lemma {:induction false} RankOfSmallest(t: seq<Entry>, v: int)
    requires forall i :: 0 <= i < |t| ==> t[i].value >= v
    ensures Rank(t, v) == |t|
  {
    if t != [] {
      RankOfSmallest(t[1..], v);
    }
  }

  /** The sort always produces a table sorted by value. */
  lemma {:induction false} SortByValueSorted(t: seq<Entry>)
    ensures SortedByValue(SortByValue(t))
  {
    if t != [] {
      SortByValueSorted(t[..|t| - 1]);
      InsertSorted(SortByValue(t[..|t| - 1]), t[|t| - 1]);
    }
  }

  /** An already sorted table is left as it is: the sort is stable. */
  lemma {:induction false} SortByValueOfSorted(t: seq<Entry>)
    requires SortedByValue(t)
    ensures SortByValue(t) == t
  {
    if t != [] {
      var init := t[..|t| - 1];
      SortByValueOfSorted(init);
      InsertSmallest(init, t[|t| - 1]);
      assert init + [t[|t| - 1]] == t;
    }
  }

  /** Pushing onto a sorted table and sorting is inserting the entry at its rank. */
  lemma {:induction false} PushThenSort(t: seq<Entry>, e: Entry)
    requires SortedByValue(t)
    ensures SortByValue(t + [e]) == Insert(t, e)
  {
    assert (t + [e])[..|t|] == t;
    SortByValueOfSorted(t);
  }

  /**
   * In a sorted table the rank splits the entries: those before it are at
   * least `v`, those from it on are below `v`.
   */
  lemma RankSplitsSorted(t: seq<Entry>, v: int)
    requires SortedByValue(t)
    ensures forall i :: 0 <= i < Rank(t, v) ==> t[i].value >= v
    ensures forall i :: Rank(t, v) <= i < |t| ==> t[i].value < v
  {
    RankIsBoundary(t, v);
  }

  /**
   * The inserted entry sits at the rank of its value, after every entry at
   * least as high; the entries before and after it keep their order.
   */
  lemma InsertPlacement(t: seq<Entry>, e: Entry)
    ensures var r := Insert(t, e);
            var k := Rank(t, e.value);
            r[k] == e && r[..k] == t[..k] && r[k + 1..] == t[k..]
  {
    var r := Insert(t, e);
    var k := Rank(t, e.value);
    assert r[..k] == t[..k];
    assert r[k + 1..] == t[k..];
  }

  class Leaderboard {
    var table: seq<Entry>

    ghost predicate Valid()
      reads this
    {
      SortedByValue(table)
    }

    /** The table starts empty (loading a saved table is not implemented). */
    constructor ()
      ensures Valid() && table == []
    {
      table := [];
    }

    /** Push the player's score and re-sort the table by value, highest first. */
    method AddScore(playerName: string, result: int)
      requires Valid()
      modifies this
      ensures Valid()
      ensures table == SortByValue(old(table) + [Entry(playerName, result)])
      ensures table == Insert(old(table), Entry(playerName, result))
    {
      ghost var before := table;
      table := table + [Entry(playerName, result)];
      table := SortByValue(table);
      PushThenSort(before, Entry(playerName, result));
      InsertSorted(before, Entry(playerName, result));
    }

    /**
     * One row per table entry up to `numItems`: rank, name and score, spaced
     * evenly below the title.
     */
    method DisplayTable(numItems: nat) returns (rows: seq<Row>)
      ensures |rows| == (if |table| < numItems then |table| else numItems)
      ensures forall i :: 0 <= i < |rows| ==>
        numItems > 0 &&
        rows[i] == Row(i + 1, table[i].key, table[i].value,
                       MARGIN + SCREEN_WIDTH / (numItems as real * 2.0) * (i + 1) as real)
    {
      rows := [];
      var count := if |table| < numItems then |table| else numItems;
      var i := 0;
      while i < count
        invariant 0 <= i <= count
        invariant |rows| == i
        invariant forall k :: 0 <= k < i ==>
          numItems > 0 &&
          rows[k] == Row(k + 1, table[k].key, table[k].value,
                         MARGIN + SCREEN_WIDTH / (numItems as real * 2.0) * (k + 1) as real)
      {
        var spacing := SCREEN_WIDTH / (numItems as real * 2.0);
        rows := rows + [Row(i + 1, table[i].key, table[i].value, MARGIN + spacing * (i + 1) as real)];
        i := i + 1;
      }
    }

    /** `onInit`: the screen shows the first `DISPLAY_MAX` rows. */
    method OnInit() returns (rows: seq<Row>)
      ensures |rows| == (if |table| < DISPLAY_MAX then |table| else DISPLAY_MAX)
      ensures forall i :: 0 <= i < |rows| ==> rows[i].rank == i + 1 && rows[i].key == table[i].key && rows[i].value == table[i].value
    {
      rows := DisplayTable(DISPLAY_MAX);
    }
  }
}
