/** Keyset paging: rows are ordered by (created_at, id) and a page starts after the last row of
    the page before.  The table may change between two pages.
  */
module Keyset {
  import opened ArtifactDomain

  /** created_at never changes and ids are unique, so the pair names a row. */
  type RowKey = (int, int)

  /** Artifacts are listed newest first, projects oldest first. */
  datatype Direction = Ascending | Descending

  predicate Before(d: Direction, a: RowKey, b: RowKey) {
    match d
    case Ascending => a.0 < b.0 || (a.0 == b.0 && a.1 < b.1)
    case Descending => a.0 > b.0 || (a.0 == b.0 && a.1 > b.1)
  }

  predicate Ordered(d: Direction, s: seq<RowKey>) {
    forall i, j | 0 <= i < j < |s| :: Before(d, s[i], s[j])
  }

  predicate IsFirst(d: Direction, s: set<RowKey>, k: RowKey) {
    k in s && forall x | x in s :: x == k || Before(d, k, x)
  }

  lemma FirstExists(d: Direction, s: set<RowKey>)
    requires s != {}
    ensures exists k :: IsFirst(d, s, k)
  {
    var x :| x in s;
    if s == {x} {
      assert IsFirst(d, s, x);
    } else {
      FirstExists(d, s - {x});
      var k :| IsFirst(d, s - {x}, k);
      var first := if Before(d, x, k) then x else k;
      forall y | y in s ensures y == first || Before(d, first, y) {
        if y != x {
          assert y in s - {x};
        }
      }
      assert IsFirst(d, s, first);
    }
  }

  lemma FirstIsUnique(d: Direction, s: set<RowKey>, k: RowKey, k': RowKey)
    requires IsFirst(d, s, k) && IsFirst(d, s, k')
    ensures k == k'
  {
  }

  function First(d: Direction, s: set<RowKey>): (k: RowKey)
    requires s != {}
    ensures IsFirst(d, s, k)
  {
    FirstExists(d, s);
    assert forall k, k' | IsFirst(d, s, k) && IsFirst(d, s, k') :: k == k' by {
      forall k, k' | IsFirst(d, s, k) && IsFirst(d, s, k') ensures k == k' {
        FirstIsUnique(d, s, k, k');
      }
    }
    var k :| IsFirst(d, s, k);
    k
  }

  /** ORDER BY */
  function Sorted(d: Direction, s: set<RowKey>): (r: seq<RowKey>)
    ensures |r| == |s|
    ensures forall k :: k in r <==> k in s
    ensures Ordered(d, r)
  {
    if s == {} then []
    else
      var k := First(d, s);
      [k] + Sorted(d, s - {k})
  }

  lemma {:induction false} SortedUnique(d: Direction, s: seq<RowKey>, r: seq<RowKey>)
    requires Ordered(d, s) && Ordered(d, r) && forall k :: k in s <==> k in r
    ensures s == r
  {
    if s == [] {
      assert forall i | 0 <= i < |r| :: r[i] in r;
    } else {
      assert s[0] in r && r[0] in s;
      assert s[0] == r[0];
      forall k ensures k in s[1..] <==> k in r[1..] {
        assert k in s[1..] <==> k in s && k != s[0];
        assert k in r[1..] <==> k in r && k != r[0];
      }
      SortedUnique(d, s[1..], r[1..]);
    }
  }

  // ----- One page

  /** WHERE of a page: the rows after the cursor. */
  ghost function After(d: Direction, table: set<RowKey>, cursor: Option<RowKey>): set<RowKey> {
    set k | k in table && (cursor.Some? ==> Before(d, cursor.value, k))
  }

  datatype Page = Page(items: seq<RowKey>, next: Option<RowKey>)

  ghost function Fetch(d: Direction, table: set<RowKey>, cursor: Option<RowKey>, limit: nat): Page
    requires limit > 0
  {
    var ordered := Sorted(d, After(d, table, cursor));
    var rows := if |ordered| <= limit + 1 then ordered else ordered[..limit + 1];
    if |rows| > limit then Page(rows[..limit], Some(rows[limit - 1])) else Page(rows, None)
  }

  lemma PageItems(d: Direction, table: set<RowKey>, cursor: Option<RowKey>, limit: nat)
    requires limit > 0
    ensures var ordered, p := Sorted(d, After(d, table, cursor)), Fetch(d, table, cursor, limit);
            p == if |ordered| <= limit then Page(ordered, None) else Page(ordered[..limit], Some(ordered[limit - 1]))
  {
    hide Sorted, Before, Ordered;
    var ordered := Sorted(d, After(d, table, cursor));
    if |ordered| > limit + 1 {
      assert ordered[..limit + 1][..limit] == ordered[..limit];
    }
  }

  lemma SplitOrdered(d: Direction, ordered: seq<RowKey>, limit: nat, k: RowKey)
    requires Ordered(d, ordered) && k in ordered && 0 < limit < |ordered|
    ensures k in ordered[..limit] || Before(d, ordered[limit - 1], k)
  {
    hide Before;
    var i :| 0 <= i < |ordered| && ordered[i] == k;
    if i < limit {
      assert ordered[..limit][i] == k;
    }
  }

  lemma PageFacts(d: Direction, table: set<RowKey>, cursor: Option<RowKey>, limit: nat)
    requires limit > 0
    ensures var p := Fetch(d, table, cursor, limit);
            && Ordered(d, p.items) && (forall k | k in p.items :: k in After(d, table, cursor))
            && (p.next.Some? ==> p.next.value in p.items && forall k | k in p.items :: k == p.next.value || Before(d, k, p.next.value))
            && (forall k | k in After(d, table, cursor) :: k in p.items || (p.next.Some? && Before(d, p.next.value, k)))
  {
    hide Sorted, Fetch, After, Before;
    var ordered := Sorted(d, After(d, table, cursor));
    PageItems(d, table, cursor, limit);
    if |ordered| > limit {
      forall k | k in After(d, table, cursor) ensures k in ordered[..limit] || Before(d, ordered[limit - 1], k) {
        SplitOrdered(d, ordered, limit, k);
      }
      assert ordered[..limit][limit - 1] == ordered[limit - 1];
    }
  }

  // ----- A walk that follows next_cursor; tables[i] is the table when page i is fetched

  datatype Walked = Walked(items: seq<RowKey>, pages: nat, finished: bool)

  ghost function Walk(d: Direction, tables: seq<set<RowKey>>, cursor: Option<RowKey>, limit: nat): Walked
    requires limit > 0
  {
    if tables == [] then Walked([], 0, false)
    else
      var p := Fetch(d, tables[0], cursor, limit);
      if p.next.None? then Walked(p.items, 1, true)
      else
        var rest := Walk(d, tables[1..], p.next, limit);
        Walked(p.items + rest.items, rest.pages + 1, rest.finished)
  }

  /** Whatever happens to the table in between, rows come in order and none comes twice. */
  lemma {:induction false} WalkIsOrdered(d: Direction, tables: seq<set<RowKey>>, cursor: Option<RowKey>, limit: nat)
    requires limit > 0
    ensures var w := Walk(d, tables, cursor, limit);
            && Ordered(d, w.items) && w.pages <= |tables|
            && forall k | k in w.items :: cursor.Some? ==> Before(d, cursor.value, k)
  {
    hide Sorted, Fetch;
    if tables != [] {
      var p := Fetch(d, tables[0], cursor, limit);
      PageFacts(d, tables[0], cursor, limit);
      if p.next.Some? {
        var rest := Walk(d, tables[1..], p.next, limit);
        WalkIsOrdered(d, tables[1..], p.next, limit);
        forall i, j | 0 <= i < j < |p.items + rest.items| ensures Before(d, (p.items + rest.items)[i], (p.items + rest.items)[j]) {
          if i < |p.items| <= j {
            assert rest.items[j - |p.items|] in rest.items && p.items[i] in p.items;
          }
        }
      }
    }
  }

  /** Every row of the walk was there when its page was fetched. */
  lemma {:induction false} WalkIsSound(d: Direction, tables: seq<set<RowKey>>, cursor: Option<RowKey>, limit: nat, k: RowKey)
    requires limit > 0 && k in Walk(d, tables, cursor, limit).items
    ensures exists i | 0 <= i < Walk(d, tables, cursor, limit).pages <= |tables| :: k in tables[i]
  {
    hide Sorted, Fetch;
    WalkIsOrdered(d, tables, cursor, limit);
    if tables != [] {
      var p := Fetch(d, tables[0], cursor, limit);
      PageFacts(d, tables[0], cursor, limit);
      if k in p.items {
        assert k in tables[0];
      } else {
        WalkIsSound(d, tables[1..], p.next, limit, k);
        var i :| 0 <= i < Walk(d, tables[1..], p.next, limit).pages && k in tables[1..][i];
        assert tables[i + 1] == tables[1..][i];
      }
    }
  }

  /** A finished walk shows every row that matched throughout, exactly once. */
  lemma {:induction false} WalkIsComplete(d: Direction, tables: seq<set<RowKey>>, cursor: Option<RowKey>, limit: nat, k: RowKey)
    requires limit > 0 && Walk(d, tables, cursor, limit).finished
    requires forall i | 0 <= i < Walk(d, tables, cursor, limit).pages && i < |tables| :: k in tables[i]
    requires cursor.Some? ==> Before(d, cursor.value, k)
    ensures multiset(Walk(d, tables, cursor, limit).items)[k] == 1
  {
    hide Sorted, Fetch;
    WalkContains(d, tables, cursor, limit, k);
    WalkIsOrdered(d, tables, cursor, limit);
    OrderedOnce(d, Walk(d, tables, cursor, limit).items, k);
  }

  lemma {:induction false} WalkContains(d: Direction, tables: seq<set<RowKey>>, cursor: Option<RowKey>, limit: nat, k: RowKey)
    requires limit > 0 && Walk(d, tables, cursor, limit).finished
    requires forall i | 0 <= i < Walk(d, tables, cursor, limit).pages && i < |tables| :: k in tables[i]
    requires cursor.Some? ==> Before(d, cursor.value, k)
    ensures k in Walk(d, tables, cursor, limit).items
  {
    hide Sorted, Fetch;
    var p := Fetch(d, tables[0], cursor, limit);
    PageFacts(d, tables[0], cursor, limit);
    assert k in tables[0];
    if k !in p.items {
      forall i | 0 <= i < Walk(d, tables[1..], p.next, limit).pages && i < |tables[1..]| ensures k in tables[1..][i] {
        assert tables[1..][i] == tables[i + 1];
      }
      WalkContains(d, tables[1..], p.next, limit, k);
    }
  }

  lemma {:induction false} OrderedOnce(d: Direction, s: seq<RowKey>, k: RowKey)
    requires Ordered(d, s) && k in s
    ensures multiset(s)[k] == 1
  {
    if s[0] == k {
      assert k !in s[1..];
      assert s == [s[0]] + s[1..];
    } else {
      OrderedOnce(d, s[1..], k);
      assert s == [s[0]] + s[1..];
    }
  }

  function Pages(rows: nat, limit: nat): nat
    requires limit > 0
  {
    if rows <= limit then 1 else 1 + Pages(rows - limit, limit)
  }

  /** On a table that does not change, the walk ends after max(1, ceil(n / limit)) pages with the sorted table. */
  lemma {:induction false} FixedTableWalk(d: Direction, table: set<RowKey>, tables: seq<set<RowKey>>, cursor: Option<RowKey>, limit: nat)
    requires limit > 0 && forall i | 0 <= i < |tables| :: tables[i] == table
    requires |tables| >= Pages(|After(d, table, cursor)|, limit)
    ensures Walk(d, tables, cursor, limit) == Walked(Sorted(d, After(d, table, cursor)), Pages(|After(d, table, cursor)|, limit), true)
    decreases |tables|
  {
    hide Sorted, Fetch, After, Before, Ordered;
    var ordered := Sorted(d, After(d, table, cursor));
    var p := Fetch(d, tables[0], cursor, limit);
    PageItems(d, table, cursor, limit);
    if |ordered| > limit {
      RestOfTable(d, table, cursor, limit);
      assert |After(d, table, p.next)| == |ordered| - limit;
      FixedTableWalk(d, table, tables[1..], p.next, limit);
      assert ordered == ordered[..limit] + ordered[limit..];
    }
  }

  lemma RestOfTable(d: Direction, table: set<RowKey>, cursor: Option<RowKey>, limit: nat)
    requires 0 < limit < |Sorted(d, After(d, table, cursor))|
    ensures var ordered := Sorted(d, After(d, table, cursor));
            Sorted(d, After(d, table, Some(ordered[limit - 1]))) == ordered[limit..]
  {
    hide Sorted;
    var ordered := Sorted(d, After(d, table, cursor));
    var rest := After(d, table, Some(ordered[limit - 1]));
    assert ordered[limit - 1] in After(d, table, cursor);
    forall k ensures k in rest <==> k in ordered[limit..] {
      if k in rest {
        assert k in After(d, table, cursor);
        SuffixHas(d, ordered, limit, k);
      }
      if k in ordered[limit..] {
        assert k in ordered;
      }
    }
    SortedUnique(d, Sorted(d, rest), ordered[limit..]);
  }

  lemma SuffixHas(d: Direction, ordered: seq<RowKey>, limit: nat, k: RowKey)
    requires Ordered(d, ordered) && k in ordered && 0 < limit < |ordered| && Before(d, ordered[limit - 1], k)
    ensures k in ordered[limit..]
  {
    var i :| 0 <= i < |ordered| && ordered[i] == k;
    assert i >= limit;
    assert ordered[limit..][i - limit] == k;
  }

  /** Pages is max(1, ceil(rows / limit)): enough pages, and one fewer would not do. */
  lemma {:induction false} PagesIsCeiling(rows: nat, limit: nat)
    requires limit > 0
    ensures var pages := Pages(rows, limit); rows <= pages * limit && (pages == 1 || (pages - 1) * limit < rows)
  {
    if rows > limit {
      PagesIsCeiling(rows - limit, limit);
      var pages := Pages(rows - limit, limit);
      assert (pages + 1) * limit == pages * limit + limit;
      assert pages * limit == (pages - 1) * limit + limit;
    }
  }

  /** In a walk of the artifact list creation times never increase, and ids decrease among equal ones. */
  lemma NewestFirst(tables: seq<set<RowKey>>, cursor: Option<RowKey>, limit: nat)
    requires limit > 0
    ensures var items := Walk(Descending, tables, cursor, limit).items;
            forall i, j | 0 <= i < j < |items| :: items[i].0 > items[j].0 || (items[i].0 == items[j].0 && items[i].1 > items[j].1)
  {
    WalkIsOrdered(Descending, tables, cursor, limit);
    hide Walk;
    assert forall i, j | 0 <= i < j < |Walk(Descending, tables, cursor, limit).items| ::
        Before(Descending, Walk(Descending, tables, cursor, limit).items[i], Walk(Descending, tables, cursor, limit).items[j]);
  }

  /** In a walk of the project list they never decrease, and ids increase among equal ones. */
  lemma OldestFirst(tables: seq<set<RowKey>>, cursor: Option<RowKey>, limit: nat)
    requires limit > 0
    ensures var items := Walk(Ascending, tables, cursor, limit).items;
            forall i, j | 0 <= i < j < |items| :: items[i].0 < items[j].0 || (items[i].0 == items[j].0 && items[i].1 < items[j].1)
  {
    WalkIsOrdered(Ascending, tables, cursor, limit);
    hide Walk;
    assert forall i, j | 0 <= i < j < |Walk(Ascending, tables, cursor, limit).items| ::
        Before(Ascending, Walk(Ascending, tables, cursor, limit).items[i], Walk(Ascending, tables, cursor, limit).items[j]);
  }
}
