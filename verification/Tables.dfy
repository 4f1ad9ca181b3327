/** SQL tables keyed by rowid, and the two ways the lifecycle reads them: a
    bounded `WHERE rowid>? ORDER BY rowid LIMIT ?` page and a whole listing. */
module Tables {

  type Table<R> = map<nat, R>

  datatype Listed<R> = Listed(rowid: nat, row: R)

  function Above<R>(m: Table<R>, after: int): set<nat> {
    set k | k in m && after < k
  }

  ghost predicate IsLeast<R>(m: Table<R>, after: int, k: nat) {
    k in Above(m, after) && forall j | j in Above(m, after) :: k <= j
  }

  lemma LeastExists(s: set<nat>) returns (k: nat)
    requires s != {}
    ensures k in s && forall j | j in s :: k <= j
  {
    k :| k in s;
    if s != {k} {
      var j := LeastExists(s - {k});
      forall i | i in s ensures j <= i || k <= i { assert i == k || i in s - {k}; }
      if j < k { k := j; }
    }
  }

  function Least<R>(m: Table<R>, after: int): (k: nat)
    requires Above(m, after) != {}
    ensures IsLeast(m, after, k)
  {
    var s := Above(m, after);
    assert exists k :: k in s && forall j | j in s :: k <= j by {
      var k := LeastExists(s);
    }
    var k :| k in s && forall j | j in s :: k <= j;
    k
  }

  lemma AboveShrinks<R>(m: Table<R>, after: int)
    requires Above(m, after) != {}
    ensures Above(m, Least(m, after)) == Above(m, after) - {Least(m, after)}
    ensures |Above(m, Least(m, after))| == |Above(m, after)| - 1
  {
    assert Above(m, Least(m, after)) == Above(m, after) - {Least(m, after)};
  }

  /** `SELECT ... WHERE rowid>after ORDER BY rowid LIMIT limit`. */
  function Select<R>(m: Table<R>, after: int, limit: nat): (s: seq<Listed<R>>)
    ensures |s| <= limit
    ensures s == [] <==> limit == 0 || Above(m, after) == {}
    decreases limit
  {
    if limit == 0 || Above(m, after) == {} then []
    else
      var k := Least(m, after);
      [Listed(k, m[k])] + Select(m, k, limit - 1)
  }

  /** The same query without a limit. */
  function Listing<R>(m: Table<R>, after: int): (s: seq<Listed<R>>)
    ensures |s| == |Above(m, after)|
    decreases |Above(m, after)|
  {
    if Above(m, after) == {} then []
    else
      var k := Least(m, after);
      AboveShrinks(m, after);
      [Listed(k, m[k])] + Listing(m, k)
  }

  /** Where the cursor stands after a page: its last rowid. */
  function Cursor<R>(s: seq<Listed<R>>, after: int): int {
    if s == [] then after else s[|s| - 1].rowid
  }

  ghost predicate Ascending<R>(s: seq<Listed<R>>, after: int) {
    && (forall i | 0 <= i < |s| :: after < s[i].rowid)
    && forall i, j | 0 <= i < j < |s| :: s[i].rowid < s[j].rowid
  }

  /** A page and the listing from its cursor make up the listing. */
  lemma {:induction false} SelectSplits<R>(m: Table<R>, after: int, limit: nat)
    ensures Listing(m, after) == Select(m, after, limit) + Listing(m, Cursor(Select(m, after, limit), after))
    ensures Select(m, after, limit) != [] ==> after < Cursor(Select(m, after, limit), after)
    decreases limit
  {
    hide Least;
    if limit == 0 || Above(m, after) == {} {
    } else {
      var k := Least(m, after);
      SelectSplits(m, k, limit - 1);
      var rest := Select(m, k, limit - 1);
      assert Cursor([Listed(k, m[k])] + rest, after) == Cursor(rest, k);
    }
  }

  /** The rows of the table, and nothing else. */
  ghost predicate FromTable<R>(m: Table<R>, s: seq<Listed<R>>) {
    forall i | 0 <= i < |s| :: s[i].rowid in m && s[i].row == m[s[i].rowid]
  }

  lemma AscendingCons<R>(k: nat, row: R, s: seq<Listed<R>>, after: int)
    requires after < k && Ascending(s, k)
    ensures Ascending([Listed(k, row)] + s, after)
  {
    var t := [Listed(k, row)] + s;
    forall i | 0 <= i < |t| ensures after < t[i].rowid { if i > 0 { assert t[i] == s[i - 1]; } }
    forall i, j | 0 <= i < j < |t| ensures t[i].rowid < t[j].rowid {
      assert t[j] == s[j - 1];
      if i > 0 { assert t[i] == s[i - 1]; }
    }
  }

  /** A listing is ascending and holds each row of the table exactly once. */
  lemma {:induction false} ListingExact<R>(m: Table<R>, after: int)
    ensures Ascending(Listing(m, after), after)
    ensures FromTable(m, Listing(m, after))
    ensures forall k | k in Above(m, after) :: exists i :: 0 <= i < |Listing(m, after)| && Listing(m, after)[i].rowid == k
    decreases |Above(m, after)|
  {
    if Above(m, after) != {} {
      var k := Least(m, after);
      AboveShrinks(m, after);
      ListingExact(m, k);
      var rest := Listing(m, k);
      var s := [Listed(k, m[k])] + rest;
      assert Listing(m, after) == s;
      AscendingCons(k, m[k], rest, after);
      forall j | j in Above(m, after) ensures exists i :: 0 <= i < |s| && s[i].rowid == j {
        if j == k {
          assert s[0].rowid == k;
        } else {
          assert j in Above(m, k);
          var i :| 0 <= i < |rest| && rest[i].rowid == j;
          assert s[i + 1] == rest[i];
        }
      }
    }
  }

  /** A page is ascending too and only holds rows of the table. */
  lemma {:induction false} SelectExact<R>(m: Table<R>, after: int, limit: nat)
    ensures Ascending(Select(m, after, limit), after)
    ensures FromTable(m, Select(m, after, limit))
    decreases limit
  {
    if limit == 0 || Above(m, after) == {} {
    } else {
      var k := Least(m, after);
      SelectExact(m, k, limit - 1);
      AscendingCons(k, m[k], Select(m, k, limit - 1), after);
    }
  }

  /** `INSERT OR REPLACE` of a run of rows, one after the other. */
  function InsertAll<R>(m: Table<R>, rows: seq<Listed<R>>): Table<R>
    decreases |rows|
  {
    if rows == [] then m else InsertAll(m[rows[0].rowid := rows[0].row], rows[1..])
  }

  lemma {:induction false} InsertAppends<R>(m: Table<R>, a: seq<Listed<R>>, b: seq<Listed<R>>)
    ensures InsertAll(m, a + b) == InsertAll(InsertAll(m, a), b)
    decreases |a|
  {
    if a == [] {
      assert a + b == b;
    } else {
      assert (a + b)[1..] == a[1..] + b;
      InsertAppends(m[a[0].rowid := a[0].row], a[1..], b);
    }
  }

  lemma {:induction false} InsertCovers<R>(m: Table<R>, rows: seq<Listed<R>>, after: int)
    requires Ascending(rows, after)
    ensures forall k | k in InsertAll(m, rows) ::
              k in m || exists i :: 0 <= i < |rows| && rows[i].rowid == k
    ensures forall i | 0 <= i < |rows| ::
              rows[i].rowid in InsertAll(m, rows) && InsertAll(m, rows)[rows[i].rowid] == rows[i].row
    decreases |rows|
    ensures forall k | k in m && (forall i | 0 <= i < |rows| :: rows[i].rowid != k) ::
              k in InsertAll(m, rows) && InsertAll(m, rows)[k] == m[k]
  {
    if rows == [] {
    } else {
      var m1 := m[rows[0].rowid := rows[0].row];
      var rest := rows[1..];
      InsertCovers(m1, rest, rows[0].rowid);
      forall k | k in InsertAll(m, rows)
        ensures k in m || exists i :: 0 <= i < |rows| && rows[i].rowid == k
      {
        if k !in m && k != rows[0].rowid {
          var i :| 0 <= i < |rest| && rest[i].rowid == k;
          assert rows[i + 1].rowid == k;
        }
      }
      forall i | 0 <= i < |rows|
        ensures rows[i].rowid in InsertAll(m, rows) && InsertAll(m, rows)[rows[i].rowid] == rows[i].row
      {
        if i > 0 { assert rows[i] == rest[i - 1]; }
      }
    }
  }

  lemma RestoredRow<R>(m: Table<R>, k: nat)
    requires k in m
    ensures var r := InsertAll(map[], Listing(m, -1)); k in r && r[k] == m[k]
  {
    hide Listing, InsertAll;
    var s := Listing(m, -1);
    ListingExact(m, -1);
    InsertCovers(map[], s, -1);
    assert k in Above(m, -1);
    var i :| 0 <= i < |s| && s[i].rowid == k;
    assert InsertAll(map[], s)[s[i].rowid] == s[i].row;
  }

  lemma RestoredOnly<R>(m: Table<R>, k: nat)
    requires k in InsertAll(map[], Listing(m, -1))
    ensures k in m
  {
    hide Listing, InsertAll;
    var s := Listing(m, -1);
    ListingExact(m, -1);
    InsertCovers(map[], s, -1);
    var i :| 0 <= i < |s| && s[i].rowid == k;
  }

  /** Writing a table's listing into an empty table gives the table back. */
  lemma ListingRestores<R>(m: Table<R>)
    ensures InsertAll(map[], Listing(m, -1)) == m
  {
    hide Listing, InsertAll;
    var r := InsertAll(map[], Listing(m, -1));
    forall k | k in m ensures k in r && r[k] == m[k] { RestoredRow(m, k); }
    forall k | k in r ensures k in m { RestoredOnly(m, k); }
  }
}
