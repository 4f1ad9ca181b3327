/** Previous and next page by sibling and parent queries, and the depth-first
    walk of the whole tree they must agree with. */
module Navigation {
  import opened Options
  import opened WikiTree
  import opened WikiTreeProofs

  /** The order of paths: character by character, a prefix first. */
  predicate Before(a: string, b: string) {
    b != "" && (a == "" || a[0] < b[0] || (a[0] == b[0] && Before(a[1..], b[1..])))
  }

  lemma {:induction false} BeforeOrder(a: string, b: string)
    ensures !(Before(a, b) && Before(b, a)) && (a == b ==> !Before(a, b))
    ensures a != b ==> Before(a, b) || Before(b, a)
  {
    if a != "" && b != "" && a[0] == b[0] {
      BeforeOrder(a[1..], b[1..]);
      assert a == [a[0]] + a[1..] && b == [b[0]] + b[1..];
    }
  }

  lemma {:induction false} BeforeTransitive(a: string, b: string, c: string)
    requires Before(a, b) && Before(b, c)
    ensures Before(a, c)
  {
    if a != "" && a[0] == b[0] == c[0] { BeforeTransitive(a[1..], b[1..], c[1..]); }
  }

  /** `a` comes ahead of `b` in ascending or descending path order. */
  predicate Ahead(pages: map<Id, Page>, up: bool, a: Id, b: Id)
    requires a in pages && b in pages
  {
    if up then Before(pages[a].path, pages[b].path) else Before(pages[b].path, pages[a].path)
  }

  /** The first row of a result ordered by path. */
  ghost predicate IsPick(pages: map<Id, Page>, rows: set<Id>, up: bool, x: Id)
    requires rows <= pages.Keys
  {
    x in rows && forall y | y in rows && y != x :: Ahead(pages, up, x, y)
  }

  lemma {:induction false} PickExists(pages: map<Id, Page>, rows: set<Id>, up: bool) returns (x: Id)
    requires Forest(pages) && rows <= pages.Keys && rows != {}
    ensures IsPick(pages, rows, up, x)
    decreases |rows|
  {
    var a :| a in rows;
    var rest := rows - {a};
    if rest == {} {
      x := a;
      assert rows == {a};
    } else {
      var r := PickExists(pages, rest, up);
      BeforeOrder(pages[a].path, pages[r].path);
      if Ahead(pages, up, r, a) {
        x := r;
      } else {
        x := a;
        forall y | y in rows && y != a ensures Ahead(pages, up, a, y) {
          if y != r {
            assert Ahead(pages, up, r, y);
            if up { BeforeTransitive(pages[a].path, pages[r].path, pages[y].path); }
            else { BeforeTransitive(pages[y].path, pages[r].path, pages[a].path); }
          }
        }
      }
    }
  }

  /** `ORDER BY path LIMIT 1` over some rows. */
  ghost function Pick(pages: map<Id, Page>, rows: set<Id>, up: bool): (x: Option<Id>)
    requires Forest(pages) && rows <= pages.Keys
    ensures x.None? <==> rows == {}
    ensures x.Some? ==> IsPick(pages, rows, up, x.value)
  {
    if rows == {} then None
    else
      assert exists x :: IsPick(pages, rows, up, x) by { var x := PickExists(pages, rows, up); }
      var x :| IsPick(pages, rows, up, x);
      Some(x)
  }

  function Further(pages: map<Id, Page>, id: Id, up: bool): (r: set<Id>)
    requires id in pages
  {
    set y | y in Kids(pages, pages[id].parent) && Ahead(pages, up, id, y)
  }

  /** The query `edge`: the first or last child of a parent. */
  ghost function Edge(pages: map<Id, Page>, parent: Option<Id>, up: bool): Option<Id>
    requires Forest(pages)
  {
    Pick(pages, Kids(pages, parent), up)
  }

  /** The query `sibling`: the nearest page on one side under the same parent. */
  ghost function Sibling(pages: map<Id, Page>, id: Id, up: bool): Option<Id>
    requires Forest(pages) && id in pages
  {
    Pick(pages, Further(pages, id, up), up)
  }

  ghost function Height(pages: map<Id, Page>, id: Id): (n: nat)
    requires Forest(pages) && Live(pages, id)
    ensures n <= LEVELS && Rooted(pages, id, n)
  {
    assert Placed(pages, id);
    var n: nat :| n <= LEVELS && Rooted(pages, id, n);
    n
  }

  lemma HeightOfChild(pages: map<Id, Page>, id: Id)
    requires Forest(pages) && Live(pages, id)
    ensures pages[id].parent.None? ==> Height(pages, id) == 0
    ensures pages[id].parent.Some? ==>
      Live(pages, pages[id].parent.value) && Height(pages, id) == Height(pages, pages[id].parent.value) + 1
  {
    if pages[id].parent.Some? {
      ParentRooted(pages, id);
      var p := pages[id].parent.value;
      RootedOnce(pages, p, Height(pages, p), Height(pages, id) - 1);
    }
  }

  lemma ChildIs(pages: map<Id, Page>, id: Id, up: bool)
    requires Forest(pages) && Live(pages, id)
    ensures var c := Edge(pages, Some(id), up);
      c.Some? ==> Live(pages, c.value) && pages[c.value].parent == Some(id) && Height(pages, c.value) == Height(pages, id) + 1
  {
    var c := Edge(pages, Some(id), up);
    if c.Some? { HeightOfChild(pages, c.value); }
  }

  lemma SiblingIs(pages: map<Id, Page>, id: Id, up: bool)
    requires Forest(pages) && Live(pages, id)
    ensures var s := Sibling(pages, id, up);
      s.Some? ==> (Live(pages, s.value) && pages[s.value].parent == pages[id].parent && Ahead(pages, up, id, s.value)
                   && Height(pages, s.value) == Height(pages, id))
  {
    var s := Sibling(pages, id, up);
    if s.Some? {
      HeightOfChild(pages, s.value);
      HeightOfChild(pages, id);
    }
  }

  /** From a page down its last children to the end of its subtree. */
  ghost function LastBelow(pages: map<Id, Page>, id: Id): (r: Id)
    requires Forest(pages) && Live(pages, id)
    ensures Live(pages, r)
    decreases LEVELS - Height(pages, id)
  {
    ChildIs(pages, id, false);
    var c := Edge(pages, Some(id), false);
    if c.None? then id else LastBelow(pages, c.value)
  }

  /** The nearest following sibling of a page or of an ancestor. */
  ghost function Climb(pages: map<Id, Page>, id: Id): (r: Option<Id>)
    requires Forest(pages) && Live(pages, id)
    ensures r.Some? ==> Live(pages, r.value)
    decreases Height(pages, id)
  {
    SiblingIs(pages, id, true);
    HeightOfChild(pages, id);
    var s := Sibling(pages, id, true);
    if s.Some? then s
    else if pages[id].parent.None? then None
    else Climb(pages, pages[id].parent.value)
  }

  ghost function Previous(pages: map<Id, Page>, id: Id): (r: Option<Id>)
    requires Forest(pages) && Live(pages, id)
  {
    SiblingIs(pages, id, false);
    var s := Sibling(pages, id, false);
    if s.Some? then Some(LastBelow(pages, s.value)) else pages[id].parent
  }

  ghost function Next(pages: map<Id, Page>, id: Id): (r: Option<Id>)
    requires Forest(pages) && Live(pages, id)
  {
    var c := Edge(pages, Some(id), true);
    if c.Some? then c else Climb(pages, id)
  }

  // ---- The walk of the whole tree ----

  /** Depth-first pre-order from a page on: the page, its children and what hangs
      from them, then its following siblings. */
  ghost function Tour(pages: map<Id, Page>, from: Option<Id>): (r: seq<Id>)
    requires Forest(pages) && (from.Some? ==> Live(pages, from.value))
    ensures from.Some? ==> r != [] && r[0] == from.value
    ensures from.None? ==> r == []
    decreases if from.Some? then LEVELS + 1 - Height(pages, from.value) else 0, if from.Some? then |Further(pages, from.value, true)| + 1 else 0
  {
    if from.None? then []
    else
      var id := from.value;
      ChildIs(pages, id, true);
      SiblingIs(pages, id, true);
      FurtherShrinks(pages, id);
      [id] + Tour(pages, Edge(pages, Some(id), true)) + Tour(pages, Sibling(pages, id, true))
  }

  lemma FurtherShrinks(pages: map<Id, Page>, id: Id)
    requires Forest(pages) && Live(pages, id)
    ensures var s := Sibling(pages, id, true);
      s.Some? ==> |Further(pages, s.value, true)| < |Further(pages, id, true)|
  {
    var s := Sibling(pages, id, true);
    if s.Some? {
      SiblingIs(pages, id, true);
      var a, b := Further(pages, s.value, true), Further(pages, id, true);
      forall y | y in a ensures y in b { BeforeTransitive(pages[id].path, pages[s.value].path, pages[y].path); }
      BeforeOrder(pages[s.value].path, pages[s.value].path);
      assert s.value in b && s.value !in a;
      ProperSubset(a, b, s.value);
    }
  }

  lemma ProperSubset(a: set<Id>, b: set<Id>, x: Id)
    requires a <= b && x in b && x !in a
    ensures |a| < |b|
  {
    var d := b - a;
    assert b == a + d && a !! d && x in d;
  }

  /** Pre-order of every live page. */
  ghost function Preorder(pages: map<Id, Page>): seq<Id>
    requires Forest(pages)
  {
    Tour(pages, Edge(pages, None, true))
  }
}
