/** Every request keeps the forest; moves count the whole subtree moved. */
module WikiTreeProofs {
  import opened Options
  import opened WikiTree

  lemma {:induction false} RootedOnce(pages: map<Id, Page>, id: Id, n: nat, m: nat)
    requires Rooted(pages, id, n) && Rooted(pages, id, m)
    ensures n == m
    decreases n
  {
    if pages[id].parent.Some? { RootedOnce(pages, pages[id].parent.value, n - 1, m - 1); }
  }

  lemma {:induction false} LevelIs(pages: map<Id, Page>, id: Id, k: nat, d: Id)
    ensures d in Level(pages, id, k) <==> Descends(pages, d, id, k)
    decreases k
  {
    if k > 0 && Live(pages, d) && pages[d].parent.Some? { LevelIs(pages, id, k - 1, pages[d].parent.value); }
  }

  /** A live page `k` levels down has at least `k` ancestors. */
  lemma {:induction false} DescendsDeep(pages: map<Id, Page>, d: Id, id: Id, k: nat, n: nat)
    requires Descends(pages, d, id, k) && Rooted(pages, d, n)
    ensures k <= n && Rooted(pages, id, n - k)
    decreases k
  {
    if k > 0 { DescendsDeep(pages, pages[d].parent.value, id, k - 1, n - 1); }
  }

  lemma {:induction false} EmptyLevels(pages: map<Id, Page>, id: Id, k: nat, m: nat)
    requires Level(pages, id, k) == {} && k <= m
    ensures Level(pages, id, m) == {}
    decreases m
  {
    if k < m { EmptyLevels(pages, id, k, m - 1); }
  }

  lemma {:induction false} DeepestIs(pages: map<Id, Page>, id: Id, k: nat)
    requires k <= LEVELS + 1 && Level(pages, id, k) != {}
    requires Level(pages, id, LEVELS + 1) == {}
    ensures k <= Deepest(pages, id, k) <= LEVELS
    ensures Level(pages, id, Deepest(pages, id, k)) != {} && Level(pages, id, Deepest(pages, id, k) + 1) == {}
    decreases LEVELS + 1 - k
  {
    if Level(pages, id, k + 1) != {} { DeepestIs(pages, id, k + 1); }
  }

  lemma NoneDeeper(pages: map<Id, Page>, id: Id, d: Id)
    requires Forest(pages)
    ensures d !in Level(pages, id, LEVELS + 1)
  {
    LevelIs(pages, id, LEVELS + 1, d);
    if Descends(pages, d, id, LEVELS + 1) {
      assert Live(pages, d);
      assert Placed(pages, d);
      var n: nat :| n <= LEVELS && Rooted(pages, d, n);
      DescendsDeep(pages, d, id, LEVELS + 1, n);
    }
  }

  /** The query's answer is the depth of the deepest live page below, and reached. */
  lemma BelowIsDepth(pages: map<Id, Page>, id: Id)
    requires Forest(pages)
    ensures forall d, k: nat | Descends(pages, d, id, k) :: k <= Below(pages, id)
    ensures exists d :: Descends(pages, d, id, Below(pages, id))
  {
    hide Deepest, Descends, Forest;
    var deep := Level(pages, id, LEVELS + 1);
    forall d ensures d !in deep { NoneDeeper(pages, id, d); }
    assert id in Level(pages, id, 0);
    DeepestIs(pages, id, 0);
    var b := Below(pages, id);
    var d :| d in Level(pages, id, b);
    LevelIs(pages, id, b, d);
    forall d, k: nat | Descends(pages, d, id, k) ensures k <= b {
      LevelIs(pages, id, k, d);
      if k > b { EmptyLevels(pages, id, b + 1, k); }
    }
  }

  /** Whatever lies below a page hangs from one of its live children. */
  lemma {:induction false} BelowHasKids(pages: map<Id, Page>, d: Id, id: Id, k: nat)
    requires k > 0 && Descends(pages, d, id, k)
    ensures Kids(pages, Some(id)) != {}
    decreases k
  {
    if k == 1 {
      assert d in Kids(pages, Some(id));
    } else {
      BelowHasKids(pages, pages[d].parent.value, id, k - 1);
    }
  }

  /** What the walk found holds after the save too: it never met the page. */
  lemma {:induction false} WalkRooted(pages: map<Id, Page>, id: Id, row: Page, current: Option<Id>, depth: nat)
    requires Walk(pages, id, current, depth).Depth?
    ensures depth <= Walk(pages, id, current, depth).n <= LEVELS || current == None
    ensures match current
      case None => Walk(pages, id, current, depth).n == depth
      case Some(c) => Walk(pages, id, current, depth).n > depth && Rooted(pages[id := row], c, Walk(pages, id, current, depth).n - depth - 1)
    decreases LEVELS - depth
  {
    if current.Some? { WalkRooted(pages, id, row, pages[current.value].parent, depth + 1); }
  }

  /** A live page either never meets the saved page on its way up, or lies below it. */
  lemma {:induction false} MovedOrNot(pages: map<Id, Page>, id: Id, row: Page, x: Id, n: nat) returns (k: nat)
    requires Rooted(pages, x, n)
    ensures k <= n + 1
    ensures k == n + 1 ==> x != id && Rooted(pages[id := row], x, n)
    ensures k <= n ==> Descends(pages, x, id, k)
    decreases n
  {
    if x == id {
      k := 0;
    } else if pages[x].parent.None? {
      k := n + 1;
    } else {
      k := MovedOrNot(pages, id, row, pages[x].parent.value, n - 1);
      k := k + 1;
    }
  }

  /** A subtree is carried along by the page it hangs from. */
  lemma {:induction false} CarriedAlong(pages: map<Id, Page>, id: Id, row: Page, x: Id, k: nat, top: nat)
    requires Descends(pages, x, id, k) && Rooted(pages[id := row], id, top)
    requires forall i: nat | 0 < i <= k :: !Descends(pages, id, id, i)
    ensures Rooted(pages[id := row], x, top + k)
    decreases k
  {
    if k > 0 {
      assert x != id;
      CarriedAlong(pages, id, row, pages[x].parent.value, k - 1, top);
    }
  }

  lemma NoLoop(pages: map<Id, Page>, id: Id, i: nat)
    requires Forest(pages) && 0 < i
    ensures !Descends(pages, id, id, i)
  {
    if Descends(pages, id, id, i) {
      assert Live(pages, id);
      assert Placed(pages, id);
      var n: nat :| n <= LEVELS && Rooted(pages, id, n);
      DescendsDeep(pages, id, id, i, n);
      RootedOnce(pages, id, n, n - i);
    }
  }

  lemma ParentRooted(pages: map<Id, Page>, id: Id)
    requires Forest(pages) && Live(pages, id) && pages[id].parent.Some?
    ensures Live(pages, pages[id].parent.value)
  {
    assert Placed(pages, id);
    var n: nat :| n <= LEVELS && Rooted(pages, id, n);
    assert Rooted(pages, pages[id].parent.value, n - 1);
  }

  /** Where the saved page's subtree and the rest of the tree hang afterwards. */
  lemma PlacedAfter(pages: map<Id, Page>, id: Id, row: Page, up: nat, x: Id)
    requires Forest(pages) && Live(pages, x) && x != id
    requires if row.deleted then Kids(pages, Some(id)) == {} else Rooted(pages[id := row], id, up)
    requires forall d, k: nat | Descends(pages, d, id, k) :: up + k <= LEVELS
    ensures Placed(pages[id := row], x)
  {
    assert Placed(pages, x);
    var n: nat :| n <= LEVELS && Rooted(pages, x, n);
    var k := MovedOrNot(pages, id, row, x, n);
    if k <= n {
      if row.deleted { BelowHasKids(pages, x, id, k); }
      forall i: nat | 0 < i <= k ensures !Descends(pages, id, id, i) { NoLoop(pages, id, i); }
      CarriedAlong(pages, id, row, x, k, up);
      assert Rooted(pages[id := row], x, up + k);
    } else {
      assert Rooted(pages[id := row], x, n);
    }
  }

  /** A save that passes its checks keeps the forest, whatever hangs from the page. */
  lemma SaveKeepsForest(w: Wiki, id: Id, v: Value, deleted: bool, size: nat)
    requires Forest(w.pages) && (deleted ==> Kids(w.pages, Some(id)) == {})
    requires Save(w, id, v, deleted, size).Done?
    ensures Forest(Save(w, id, v, deleted, size).w.pages)
  {
    hide Below, Kids, Descends, Placed, Rooted;
    var pages := w.pages;
    var row := Save(w, id, v, deleted, size).w.pages[id];
    var up := Walk(pages, id, v.parent, 0).n;
    SavedRooted(pages, id, v, row, up);
    BelowIsDepth(pages, id);
    var pages' := pages[id := row];
    forall x | Live(pages', x) ensures Placed(pages', x) {
      if x != id {
        assert Live(pages, x);
        PlacedAfter(pages, id, row, up, x);
      } else {
        assert up <= LEVELS;
        PlacedAt(pages[id := row], id, up);
      }
    }
  }

  lemma PlacedAt(pages: map<Id, Page>, id: Id, n: nat)
    requires n <= LEVELS && Rooted(pages, id, n)
    ensures Placed(pages, id)
  {
  }

  lemma SavedRooted(pages: map<Id, Page>, id: Id, v: Value, row: Page, up: nat)
    requires Walk(pages, id, v.parent, 0) == Depth(up) && row.parent == v.parent
    ensures !row.deleted ==> Rooted(pages[id := row], id, up)
  {
    WalkRooted(pages, id, row, v.parent, 0);
  }

  lemma HandleKeepsForest(w: Wiki, r: Request, size: nat)
    requires Forest(w.pages)
    ensures Forest(After(w, r, size).pages)
  {
    hide Save, Forest;
    match r
    case Post(id, v) => if Save(w, id, v, false, size).Done? { SaveKeepsForest(w, id, v, false, size); }
    case Put(id, _, v) => if Save(w, id, v, false, size).Done? { SaveKeepsForest(w, id, v, false, size); }
    case Delete(id, _) =>
      if id in w.pages && Kids(w.pages, Some(id)) == {} && Save(w, id, ValueOf(w.pages[id]), true, size).Done? {
        SaveKeepsForest(w, id, ValueOf(w.pages[id]), true, size);
      }
  }

  /** The hierarchy invariant: after any sequence of creates, moves, deletions and
      restorations, every live page's parent is live, no page is its own ancestor,
      and no live page has more than 32 ancestors. */
  lemma {:induction false} RunKeepsForest(w: Wiki, rs: seq<(Request, nat)>)
    requires Forest(w.pages)
    ensures Forest(Run(w, rs).pages)
    decreases |rs|
  {
    if rs != [] {
      HandleKeepsForest(w, rs[0].0, rs[0].1);
      RunKeepsForest(After(w, rs[0].0, rs[0].1), rs[1..]);
    }
  }

  /** What a forest is, spelled out for one page. */
  lemma ForestMeans(pages: map<Id, Page>, id: Id)
    requires Forest(pages) && id in pages
    ensures Live(pages, id) && pages[id].parent.Some? ==> Live(pages, pages[id].parent.value)
    ensures forall k: nat | k > 0 && Live(pages, id) :: !Descends(pages, id, id, k)
    ensures forall a, k: nat | Live(pages, id) && Descends(pages, id, a, k) :: Live(pages, a) && k <= LEVELS
    ensures pages[id].deleted ==> Kids(pages, Some(id)) == {}
  {
    if Live(pages, id) {
      if pages[id].parent.Some? { ParentRooted(pages, id); }
      forall k: nat | k > 0 ensures !Descends(pages, id, id, k) { NoLoop(pages, id, k); }
      forall a, k: nat | Descends(pages, id, a, k) ensures Live(pages, a) && k <= LEVELS {
        assert Placed(pages, id);
        var n: nat :| n <= LEVELS && Rooted(pages, id, n);
        DescendsDeep(pages, id, a, k, n);
      }
    } else if c :| c in Kids(pages, Some(id)) {
      ParentRooted(pages, c);
    }
  }

  lemma BelowReached(pages: map<Id, Page>, id: Id, n: nat)
    requires Forest(pages) && Rooted(pages, id, n)
    ensures n + Below(pages, id) <= LEVELS
  {
    hide Below;
    BelowIsDepth(pages, id);
    var b := Below(pages, id);
    var d :| Descends(pages, d, id, b);
    assert Live(pages, d);
    assert Placed(pages, d);
    var m: nat :| m <= LEVELS && Rooted(pages, d, m);
    DescendsDeep(pages, d, id, b, m);
    RootedOnce(pages, id, n, m - b);
  }

  /** Saving a live page where it is never fails for its place in the tree. */
  lemma UnmovedFits(w: Wiki, id: Id)
    requires Forest(w.pages) && Live(w.pages, id)
    ensures Walk(w.pages, id, w.pages[id].parent, 0).Depth?
    ensures Walk(w.pages, id, w.pages[id].parent, 0).n + Below(w.pages, id) <= LEVELS
  {
    hide Below;
    var pages := w.pages;
    assert Placed(pages, id);
    var n: nat :| n <= LEVELS && Rooted(pages, id, n);
    WalkUp(pages, id, id, 0, n);
    BelowReached(pages, id, n);
  }

  lemma {:induction false} WalkUp(pages: map<Id, Page>, id: Id, at: Id, depth: nat, n: nat)
    requires Forest(pages) && Live(pages, id) && Descends(pages, id, at, depth) && Rooted(pages, at, n) && depth + n <= LEVELS
    ensures Walk(pages, id, pages[at].parent, depth) == Depth(depth + n)
    decreases n
  {
    hide Descends, Forest;
    if pages[at].parent.Some? {
      var p := pages[at].parent.value;
      DescendsOn(pages, id, at, depth);
      NoLoop(pages, id, depth + 1);
      ParentRooted(pages, at);
      WalkUp(pages, id, p, depth + 1, n - 1);
    }
  }

  lemma {:induction false} DescendsOn(pages: map<Id, Page>, d: Id, at: Id, k: nat)
    requires Live(pages, at) && Descends(pages, d, at, k) && pages[at].parent.Some?
    ensures Descends(pages, d, pages[at].parent.value, k + 1)
    decreases k
  {
    if k > 0 { DescendsOn(pages, pages[d].parent.value, at, k - 1); }
  }
}
