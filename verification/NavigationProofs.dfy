/** Previous and next are the neighbours in the depth-first pre-order of the live
    forest, and that order visits every live page once. */
module NavigationProofs {
  import opened Options
  import opened WikiTree
  import opened WikiTreeProofs
  import opened Navigation

  lemma PickOnce(pages: map<Id, Page>, rows: set<Id>, up: bool, x: Id)
    requires Forest(pages) && rows <= pages.Keys && IsPick(pages, rows, up, x)
    ensures Pick(pages, rows, up) == Some(x)
  {
    var y := Pick(pages, rows, up).value;
    BeforeOrder(pages[x].path, pages[y].path);
  }

  lemma DistinctPaths(pages: map<Id, Page>, x: Id, y: Id)
    requires Forest(pages) && x in pages && y in pages
    ensures !(Ahead(pages, true, x, y) && Ahead(pages, true, y, x))
    ensures x != y ==> Ahead(pages, true, x, y) || Ahead(pages, true, y, x)
    ensures !Ahead(pages, true, x, x)
    ensures Ahead(pages, false, x, y) == Ahead(pages, true, y, x)
  {
    BeforeOrder(pages[x].path, pages[y].path);
    BeforeOrder(pages[x].path, pages[x].path);
  }

  /** The first child has its parent before it. */
  lemma FirstChildFollows(pages: map<Id, Page>, parent: Option<Id>, c: Id)
    requires Forest(pages) && Edge(pages, parent, true) == Some(c)
    ensures Live(pages, c) && Previous(pages, c) == parent
  {
    forall y | y in Kids(pages, parent) ensures !Ahead(pages, false, c, y) { DistinctPaths(pages, c, y); }
    assert Further(pages, c, false) == {};
  }

  /** The last of its siblings is the one the parent query finds from the end. */
  lemma LastSibling(pages: map<Id, Page>, id: Id)
    requires Forest(pages) && Live(pages, id) && Sibling(pages, id, true).None?
    ensures Edge(pages, pages[id].parent, false) == Some(id)
  {
    var rows, after := Kids(pages, pages[id].parent), Further(pages, id, true);
    forall y | y in rows && y != id ensures Ahead(pages, false, id, y) {
      DistinctPaths(pages, id, y);
      assert y !in after;
    }
    assert id in rows;
    PickOnce(pages, rows, false, id);
  }

  /** Stepping to the next sibling and back ends where it began. */
  lemma SiblingBack(pages: map<Id, Page>, id: Id, s: Id)
    requires Forest(pages) && Live(pages, id) && Sibling(pages, id, true) == Some(s)
    ensures Live(pages, s) && Sibling(pages, s, false) == Some(id)
  {
    SiblingIs(pages, id, true);
    var rows, after := Further(pages, s, false), Further(pages, id, true);
    DistinctPaths(pages, s, id);
    assert id in rows;
    assert forall y | y in after && y != s :: Ahead(pages, true, s, y);
    forall y | y in rows && y != id ensures Ahead(pages, false, id, y) {
      DistinctPaths(pages, id, y);
      DistinctPaths(pages, s, y);
      assert y !in after;
    }
    PickOnce(pages, rows, false, id);
  }

  ghost predicate AllLive(pages: map<Id, Page>, s: seq<Id>) {
    forall x | x in s :: Live(pages, x)
  }

  /** Each element is followed by its next page and preceded by its previous one. */
  ghost predicate Linked(pages: map<Id, Page>, s: seq<Id>)
    requires Forest(pages) && AllLive(pages, s)
  {
    forall i | 0 <= i < |s| - 1 :: Next(pages, s[i]) == Some(s[i + 1]) && Previous(pages, s[i + 1]) == Some(s[i])
  }

  lemma LinkedJoin(pages: map<Id, Page>, a: seq<Id>, b: seq<Id>)
    requires Forest(pages) && AllLive(pages, a) && AllLive(pages, b)
    requires a != [] && b != []
    requires Next(pages, a[|a| - 1]) == Some(b[0]) && Previous(pages, b[0]) == Some(a[|a| - 1])
    requires Linked(pages, a) && Linked(pages, b)
    ensures AllLive(pages, a + b) && Linked(pages, a + b)
  {
    hide Next, Previous;
  }

  ghost function Up(pages: map<Id, Page>, parent: Option<Id>): Option<Id>
    requires Forest(pages) && (parent.Some? ==> Live(pages, parent.value))
  {
    if parent.None? then None else Climb(pages, parent.value)
  }

  /** What a walk from some page on looks like from outside. */
  ghost predicate TourOk(pages: map<Id, Page>, id: Id, s: seq<Id>)
    requires Forest(pages) && Live(pages, id)
  {
    && s != [] && AllLive(pages, s) && Linked(pages, s)
    && (pages[id].parent.Some? ==> Live(pages, pages[id].parent.value))
    && Next(pages, s[|s| - 1]) == Up(pages, pages[id].parent)
    && Edge(pages, pages[id].parent, false).Some?
    && Live(pages, Edge(pages, pages[id].parent, false).value)
    && s[|s| - 1] == LastBelow(pages, Edge(pages, pages[id].parent, false).value)
  }

  /** A page and everything that hangs from it. */
  lemma SubtreeOk(pages: map<Id, Page>, id: Id, below: seq<Id>)
    requires Forest(pages) && Live(pages, id)
    requires below == Tour(pages, Edge(pages, Some(id), true))
    requires Edge(pages, Some(id), true).Some? ==> Live(pages, Edge(pages, Some(id), true).value) && TourOk(pages, Edge(pages, Some(id), true).value, below)
    ensures AllLive(pages, [id] + below) && Linked(pages, [id] + below)
    ensures var s := [id] + below; s[|s| - 1] == LastBelow(pages, id) && Next(pages, s[|s| - 1]) == Climb(pages, id)
  {
    hide Climb, Pick, Height;
    var c := Edge(pages, Some(id), true);
    if c.Some? {
      ChildIs(pages, id, true);
      FirstChildFollows(pages, Some(id), c.value);
      LinkedJoin(pages, [id], below);
    }
  }

  /** The walk of a subtree, complete from outside. */
  ghost predicate SubtreeWalk(pages: map<Id, Page>, id: Id, s: seq<Id>)
    requires Forest(pages) && Live(pages, id)
  {
    && s != [] && s[0] == id && AllLive(pages, s) && Linked(pages, s)
    && s[|s| - 1] == LastBelow(pages, id) && Next(pages, s[|s| - 1]) == Climb(pages, id)
  }

  lemma WithSibling(pages: map<Id, Page>, id: Id, first: seq<Id>, s: Id, rest: seq<Id>)
    requires Forest(pages) && Live(pages, id) && SubtreeWalk(pages, id, first)
    requires Sibling(pages, id, true) == Some(s) && Live(pages, s) && TourOk(pages, s, rest) && rest[0] == s
    ensures TourOk(pages, id, first + rest)
  {
    hide LastBelow, Next, Previous, Linked, Edge, Ahead, Height, Sibling, AllLive;
    SiblingIs(pages, id, true);
    SiblingBack(pages, id, s);
    PreviousOfSibling(pages, id, s);
    LinkedJoin(pages, first, rest);
  }

  lemma WithoutSibling(pages: map<Id, Page>, id: Id, first: seq<Id>)
    requires Forest(pages) && Live(pages, id) && SubtreeWalk(pages, id, first)
    requires Sibling(pages, id, true) == None
    ensures TourOk(pages, id, first)
  {
    hide Pick, LastBelow, Next, Linked, Edge;
    HeightOfChild(pages, id);
    LastSibling(pages, id);
  }

  lemma {:induction false} TourIsOk(pages: map<Id, Page>, id: Id)
    requires Forest(pages) && Live(pages, id)
    ensures TourOk(pages, id, Tour(pages, Some(id)))
    decreases LEVELS + 1 - Height(pages, id), |Further(pages, id, true)|
  {
    hide LastBelow, Next, Linked, Climb, Edge, Sibling, TourOk, AllLive, Forest, Further, Height;
    var c, s := Edge(pages, Some(id), true), Sibling(pages, id, true);
    ChildIs(pages, id, true);
    SiblingIs(pages, id, true);
    FurtherShrinks(pages, id);
    if c.Some? { TourIsOk(pages, c.value); }
    SubtreeOk(pages, id, Tour(pages, c));
    var first := [id] + Tour(pages, c);
    assert SubtreeWalk(pages, id, first);
    if s.Some? {
      TourIsOk(pages, s.value);
      WithSibling(pages, id, first, s.value, Tour(pages, s));
    } else {
      WithoutSibling(pages, id, first);
      assert first + [] == first;
    }
  }

  lemma PreviousOfSibling(pages: map<Id, Page>, id: Id, s: Id)
    requires Forest(pages) && Live(pages, id) && Live(pages, s) && Sibling(pages, s, false) == Some(id)
    ensures Previous(pages, s) == Some(LastBelow(pages, id))
  {
  }

  // ---- Every live page, once ----

  ghost predicate Within(pages: map<Id, Page>, d: Id, id: Id) {
    exists k: nat :: Descends(pages, d, id, k)
  }

  /** `z` is the page or one of its siblings after it. */
  ghost predicate FromOn(pages: map<Id, Page>, id: Id, z: Id) {
    id in pages && Live(pages, z) && pages[z].parent == pages[id].parent && (z == id || Ahead(pages, true, id, z))
  }

  ghost predicate Covered(pages: map<Id, Page>, id: Id, y: Id) {
    exists z :: FromOn(pages, id, z) && Within(pages, y, z)
  }

  lemma {:induction false} ChildOn(pages: map<Id, Page>, y: Id, id: Id, k: nat) returns (c: Id)
    requires k > 0 && Descends(pages, y, id, k)
    ensures c in Kids(pages, Some(id)) && Descends(pages, y, c, k - 1)
    decreases k
  {
    if k == 1 { c := y; } else { c := ChildOn(pages, pages[y].parent.value, id, k - 1); }
  }

  lemma {:induction false} DescendsJoin(pages: map<Id, Page>, y: Id, c: Id, id: Id, k: nat)
    requires Descends(pages, y, c, k) && c in Kids(pages, Some(id))
    ensures Descends(pages, y, id, k + 1)
    decreases k
  {
    if k > 0 { DescendsJoin(pages, pages[y].parent.value, c, id, k - 1); }
  }

  lemma FirstFromOn(pages: map<Id, Page>, parent: Option<Id>, c: Id)
    requires Forest(pages) && c in Kids(pages, parent)
    ensures Edge(pages, parent, true).Some? && FromOn(pages, Edge(pages, parent, true).value, c)
  {
  }

  lemma SiblingFromOn(pages: map<Id, Page>, id: Id, z: Id)
    requires Forest(pages) && Live(pages, id) && FromOn(pages, id, z) && z != id
    ensures Sibling(pages, id, true).Some? && FromOn(pages, Sibling(pages, id, true).value, z)
  {
    assert z in Further(pages, id, true);
  }

  lemma FromOnLater(pages: map<Id, Page>, id: Id, z: Id)
    requires Forest(pages) && Live(pages, id) && Sibling(pages, id, true).Some?
    requires FromOn(pages, Sibling(pages, id, true).value, z)
    ensures FromOn(pages, id, z) && z != id
  {
    var s := Sibling(pages, id, true).value;
    SiblingIs(pages, id, true);
    if z != s { BeforeTransitive(pages[id].path, pages[s].path, pages[z].path); }
    DistinctPaths(pages, id, z);
  }

  /** A walk from a page on visits what hangs from it and its following siblings. */
  lemma {:induction false} TourCovers(pages: map<Id, Page>, id: Id, y: Id)
    requires Forest(pages) && Live(pages, id)
    ensures y in Tour(pages, Some(id)) <==> Covered(pages, id, y)
    decreases LEVELS + 1 - Height(pages, id), |Further(pages, id, true)|
  {
    hide Pick, Descends, Kids, Forest, FromOn, Height;
    var c, s := Edge(pages, Some(id), true), Sibling(pages, id, true);
    ChildIs(pages, id, true);
    SiblingIs(pages, id, true);
    FurtherShrinks(pages, id);
    if c.Some? { TourCovers(pages, c.value, y); }
    if s.Some? { TourCovers(pages, s.value, y); }
    if Covered(pages, id, y) { CoveredSplits(pages, id, y); }
    CoveredJoins(pages, id, y);
  }

  lemma CoveredSplits(pages: map<Id, Page>, id: Id, y: Id)
    requires Forest(pages) && Live(pages, id) && Covered(pages, id, y)
    ensures var c, s := Edge(pages, Some(id), true), Sibling(pages, id, true);
      y == id || (c.Some? && Covered(pages, c.value, y)) || (s.Some? && Covered(pages, s.value, y))
  {
    hide Pick, Kids, Forest, FromOn;
    var z :| FromOn(pages, id, z) && Within(pages, y, z);
    var k: nat :| Descends(pages, y, z, k);
    if z != id {
      SiblingFromOn(pages, id, z);
    } else if k > 0 {
      var c := ChildOn(pages, y, id, k);
      FirstFromOn(pages, Some(id), c);
      assert Within(pages, y, c);
    }
  }

  lemma CoveredJoins(pages: map<Id, Page>, id: Id, y: Id)
    requires Forest(pages) && Live(pages, id)
    ensures Covered(pages, id, id)
    ensures var c := Edge(pages, Some(id), true); c.Some? && Covered(pages, c.value, y) ==> Covered(pages, id, y)
    ensures var s := Sibling(pages, id, true); s.Some? && Covered(pages, s.value, y) ==> Covered(pages, id, y)
  {
    hide Pick, Forest;
    assert Descends(pages, id, id, 0);
    assert Within(pages, id, id);
    assert FromOn(pages, id, id);
    var c, s := Edge(pages, Some(id), true), Sibling(pages, id, true);
    if c.Some? && Covered(pages, c.value, y) {
      ChildIs(pages, id, true);
      var z :| FromOn(pages, c.value, z) && Within(pages, y, z);
      var k: nat :| Descends(pages, y, z, k);
      DescendsJoin(pages, y, z, id, k);
      assert Within(pages, y, id);
    }
    if s.Some? && Covered(pages, s.value, y) {
      var z :| FromOn(pages, s.value, z) && Within(pages, y, z);
      FromOnLater(pages, id, z);
    }
  }

  lemma {:induction false} SameAncestor(pages: map<Id, Page>, y: Id, a: Id, b: Id, k: nat)
    requires Descends(pages, y, a, k) && Descends(pages, y, b, k)
    ensures a == b
    decreases k
  {
    if k > 0 { SameAncestor(pages, pages[y].parent.value, a, b, k - 1); }
  }

  /** At one height a page has one ancestor. */
  lemma OneAncestor(pages: map<Id, Page>, y: Id, a: Id, b: Id)
    requires Forest(pages) && Live(pages, y) && Live(pages, a) && Live(pages, b)
    requires Within(pages, y, a) && Within(pages, y, b) && Height(pages, a) == Height(pages, b)
    ensures a == b
  {
    hide Forest;
    var i: nat :| Descends(pages, y, a, i);
    var j: nat :| Descends(pages, y, b, j);
    var n := Height(pages, y);
    DescendsDeep(pages, y, a, i, n);
    DescendsDeep(pages, y, b, j, n);
    RootedOnce(pages, a, n - i, Height(pages, a));
    RootedOnce(pages, b, n - j, Height(pages, b));
    SameAncestor(pages, y, a, b, i);
  }

  lemma CoveredHigh(pages: map<Id, Page>, id: Id, y: Id) returns (z: Id)
    requires Forest(pages) && Live(pages, id) && Live(pages, y) && Covered(pages, id, y)
    ensures FromOn(pages, id, z) && Within(pages, y, z) && Height(pages, z) == Height(pages, id) <= Height(pages, y)
  {
    hide Forest;
    z :| FromOn(pages, id, z) && Within(pages, y, z);
    var k: nat :| Descends(pages, y, z, k);
    var n := Height(pages, y);
    DescendsDeep(pages, y, z, k, n);
    RootedOnce(pages, z, n - k, Height(pages, z));
    HeightOfChild(pages, z);
    HeightOfChild(pages, id);
  }

  ghost predicate Distinct(s: seq<Id>) { forall i, j | 0 <= i < j < |s| :: s[i] != s[j] }

  lemma DistinctJoin(a: seq<Id>, b: seq<Id>)
    requires Distinct(a) && Distinct(b) && forall x | x in a :: x !in b
    ensures Distinct(a + b)
  {
    forall i, j | 0 <= i < j < |a + b| ensures (a + b)[i] != (a + b)[j] {
      assert i < |a| <= j ==> a[i] in a && b[j - |a|] in b;
    }
  }

  lemma Apart(pages: map<Id, Page>, id: Id, y: Id)
    requires Forest(pages) && Live(pages, id) && Live(pages, y)
    ensures var c := Edge(pages, Some(id), true);
      c.Some? && Live(pages, c.value) && Covered(pages, c.value, y) ==> y != id && Within(pages, y, id)
    ensures var s := Sibling(pages, id, true);
      s.Some? && Live(pages, s.value) && Covered(pages, s.value, y) ==> !Within(pages, y, id)
  {
    hide Forest, Pick, Within;
    var c, s := Edge(pages, Some(id), true), Sibling(pages, id, true);
    if c.Some? && Live(pages, c.value) && Covered(pages, c.value, y) {
      ChildIs(pages, id, true);
      var z := CoveredHigh(pages, c.value, y);
      WithinParent(pages, y, z, id);
    }
    if s.Some? && Live(pages, s.value) && Covered(pages, s.value, y) && Within(pages, y, id) {
      SiblingIs(pages, id, true);
      var z := CoveredHigh(pages, s.value, y);
      OneAncestor(pages, y, z, id);
      FromOnLater(pages, id, z);
    }
  }

  lemma WithinParent(pages: map<Id, Page>, y: Id, z: Id, id: Id)
    requires Within(pages, y, z) && z in Kids(pages, Some(id))
    ensures Within(pages, y, id)
  {
    var k: nat :| Descends(pages, y, z, k);
    DescendsJoin(pages, y, z, id, k);
  }

  lemma WithinSelf(pages: map<Id, Page>, id: Id)
    ensures Within(pages, id, id)
  {
    assert Descends(pages, id, id, 0);
  }

  lemma {:induction false} TourDistinct(pages: map<Id, Page>, id: Id)
    requires Forest(pages) && Live(pages, id)
    ensures Distinct(Tour(pages, Some(id)))
    decreases LEVELS + 1 - Height(pages, id), |Further(pages, id, true)|
  {
    hide Forest, Within, Covered, Distinct, Height, Ahead, Edge, Further, Sibling;
    var c, s := Edge(pages, Some(id), true), Sibling(pages, id, true);
    ChildIs(pages, id, true);
    SiblingIs(pages, id, true);
    FurtherShrinks(pages, id);
    var below, after := Tour(pages, c), Tour(pages, s);
    if c.Some? { TourDistinct(pages, c.value); TourIsOk(pages, c.value); }
    if s.Some? { TourDistinct(pages, s.value); TourIsOk(pages, s.value); }
    WithinSelf(pages, id);
    forall y | y in below ensures y != id && Live(pages, y) && Within(pages, y, id) {
      TourCovers(pages, c.value, y);
      Apart(pages, id, y);
    }
    forall y | y in after ensures !Within(pages, y, id) {
      TourCovers(pages, s.value, y);
      Apart(pages, id, y);
    }
    TwoJoins(id, below, after);
    assert Distinct([]) by { EmptyDistinct(); }
  }

  lemma EmptyDistinct()
    ensures Distinct([])
  {
  }

  lemma TwoJoins(id: Id, below: seq<Id>, after: seq<Id>)
    requires id !in below && id !in after && forall x | x in below :: x !in after
    ensures Distinct(below) && Distinct(after) ==> Distinct([id] + below + after)
  {
    if Distinct(below) && Distinct(after) {
      DistinctJoin([id], below);
      DistinctJoin([id] + below, after);
    }
  }
}
