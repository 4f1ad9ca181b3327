/** The walk from page to page, seen as a whole. */
module NavigationResults {
  import opened Options
  import opened WikiTree
  import opened Navigation
  import opened NavigationProofs

  /** Depth-first pre-order visits every live page, no other, and each once. */
  lemma PreorderVisitsAll(pages: map<Id, Page>)
    requires Forest(pages)
    ensures Distinct(Preorder(pages))
    ensures forall y :: y in Preorder(pages) <==> Live(pages, y)
  {
    hide Forest, Tour;
    var root := Edge(pages, None, true);
    if root.Some? {
      TourDistinct(pages, root.value);
      TourIsOk(pages, root.value);
    }
    forall y ensures y in Preorder(pages) <==> Live(pages, y) {
      if root.Some? { TourCovers(pages, root.value, y); }
      if Live(pages, y) { RootCovers(pages, y); }
    }
  }

  lemma RootCovers(pages: map<Id, Page>, y: Id)
    requires Forest(pages) && Live(pages, y)
    ensures Edge(pages, None, true).Some? && Covered(pages, Edge(pages, None, true).value, y)
  {
    hide Forest, IsPick;
    var z := RootOf(pages, y, Height(pages, y));
    FirstFromOn(pages, None, z);
  }

  lemma {:induction false} RootOf(pages: map<Id, Page>, y: Id, n: nat) returns (z: Id)
    requires Rooted(pages, y, n)
    ensures z in Kids(pages, None) && Within(pages, y, z)
    decreases n
  {
    if n == 0 {
      z := y;
      WithinSelf(pages, y);
    } else {
      z := RootOf(pages, pages[y].parent.value, n - 1);
      var k: nat :| Descends(pages, pages[y].parent.value, z, k);
      assert Descends(pages, y, z, k + 1);
    }
  }

  /** `previous` and `next` are exactly the neighbours in pre-order. */
  lemma NeighboursInPreorder(pages: map<Id, Page>, i: nat)
    requires Forest(pages) && i < |Preorder(pages)|
    ensures var order := Preorder(pages);
      && Live(pages, order[i])
      && Next(pages, order[i]) == (if i + 1 < |order| then Some(order[i + 1]) else None)
      && Previous(pages, order[i]) == (if i > 0 then Some(order[i - 1]) else None)
  {
    hide Forest, Next, Previous;
    var root := Edge(pages, None, true);
    TourIsOk(pages, root.value);
    FirstChildFollows(pages, None, root.value);
    var order := Preorder(pages);
    assert order[i] in order;
    if i + 1 < |order| { assert Next(pages, order[i]) == Some(order[i + 1]); } else { assert i == |order| - 1; }
    if i > 0 {
      var j := i - 1;
      assert Previous(pages, order[j + 1]) == Some(order[j]);
    }
  }

  /** Following `next` and then `previous` leads back, and the other way round. */
  lemma NextAndPreviousInvert(pages: map<Id, Page>, x: Id, y: Id)
    requires Forest(pages) && Live(pages, x) && Live(pages, y)
    ensures Next(pages, x) == Some(y) <==> Previous(pages, y) == Some(x)
  {
    hide *;
    PreorderVisitsAll(pages);
    var order := Preorder(pages);
    var i :| 0 <= i < |order| && order[i] == x;
    var j :| 0 <= j < |order| && order[j] == y;
    NeighboursInPreorder(pages, i);
    NeighboursInPreorder(pages, j);
    DistinctAt(order, i + 1, j);
    DistinctAt(order, i, j - 1);
  }

  lemma DistinctAt(s: seq<Id>, i: int, j: int)
    requires Distinct(s) && 0 <= i <= |s| && -1 <= j < |s|
    ensures i < |s| && 0 <= j ==> (s[i] == s[j] <==> i == j)
  {
  }

  /** The page after the given number of steps along `next` from the first root. */
  ghost function Steps(pages: map<Id, Page>, from: Option<Id>, k: nat): Option<Id>
    requires Forest(pages) && (from.Some? ==> Live(pages, from.value))
    decreases k
  {
    if k == 0 || from.None? then from
    else
      var next := Next(pages, from.value);
      if next.Some? && !Live(pages, next.value) then None else Steps(pages, next, k - 1)
  }

  lemma {:induction false} StepsAlong(pages: map<Id, Page>, i: nat, k: nat)
    requires Forest(pages) && i < |Preorder(pages)|
    ensures var order := Preorder(pages);
      && Live(pages, order[i])
      && Steps(pages, Some(order[i]), k) == (if i + k < |order| then Some(order[i + k]) else None)
    decreases k
  {
    hide Forest, Next, Previous, Preorder;
    NeighboursInPreorder(pages, i);
    if k > 0 && i + 1 < |Preorder(pages)| {
      NeighboursInPreorder(pages, i + 1);
      StepsAlong(pages, i + 1, k - 1);
    }
  }

  /** From the first root, `next` reaches every live page after exactly one number
      of steps, and then ends. */
  lemma NextVisitsEveryPage(pages: map<Id, Page>, y: Id) returns (k: nat)
    requires Forest(pages) && Live(pages, y)
    ensures Edge(pages, None, true).Some? && Live(pages, Edge(pages, None, true).value)
    ensures Steps(pages, Edge(pages, None, true), k) == Some(y)
    ensures forall m: nat | m != k :: Steps(pages, Edge(pages, None, true), m) != Some(y)
    ensures forall m: nat | m >= |Preorder(pages)| :: Steps(pages, Edge(pages, None, true), m) == None
  {
    hide Forest, Tour, Steps, Edge;
    PreorderVisitsAll(pages);
    RootCovers(pages, y);
    var order := Preorder(pages);
    k :| 0 <= k < |order| && order[k] == y;
    assert Edge(pages, None, true) == Some(order[0]);
    StepsAlong(pages, 0, k);
    forall m: nat ensures Steps(pages, Some(order[0]), m) == (if m < |order| then Some(order[m]) else None) { StepsAlong(pages, 0, m); }
  }
}
