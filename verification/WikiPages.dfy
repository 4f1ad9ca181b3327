/** The wiki's page table as the object that keeps it, and its navigation query
    with every loop cut off after 32 steps. */
module WikiPages {
  import opened Options
  import opened WikiTree
  import opened WikiTreeProofs
  import opened Navigation
  import opened NavigationProofs

  class WikiPages {
    var pages: map<Id, Page>
    var bytes: nat
    var version: nat

    ghost function View(): Wiki
      reads this
    {
      Wiki(pages, bytes, version)
    }

    ghost predicate Valid()
      reads this
    {
      Forest(pages)
    }

    constructor ()
      ensures Valid() && View() == Wiki(map[], 0, 0)
    {
      pages, bytes, version := map[], 0, 0;
    }

    /** The recursive query over the live pages below one page. */
    method SubtreeDepth(id: Id) returns (depth: nat)
      requires Valid()
      ensures depth == Below(pages, id)
    {
      hide Under, Forest;
      var level := {id};
      depth := 0;
      NoneAt(pages, id);
      while true
        invariant depth <= LEVELS && level == Level(pages, id, depth) && Deepest(pages, id, depth) == Below(pages, id)
        decreases LEVELS - depth
      {
        level := Under(pages, level);
        if level == {} { break; }
        depth := depth + 1;
      }
    }

    /** Refuses a parent that is missing, closes a cycle, or lies too deep for the
        page and what hangs from it. */
    method Parent(id: Id, parent: Option<Id>) returns (refused: Option<Refusal>)
      requires Valid()
      ensures var up := Walk(pages, id, parent, 0);
        refused == if up.Bad? then Some(up.why) else if up.n + Below(pages, id) > LEVELS then Some(TooDeep) else None
    {
      var current, depth := parent, 0;
      while current.Some?
        invariant depth <= LEVELS && Walk(pages, id, current, depth) == Walk(pages, id, parent, 0)
        decreases LEVELS - depth
      {
        if current.value == id || depth >= LEVELS { return Some(Hierarchy); }
        if current.value !in pages || pages[current.value].deleted { return Some(NotFound); }
        current, depth := pages[current.value].parent, depth + 1;
      }
      var below := SubtreeDepth(id);
      return if depth + below > LEVELS then Some(TooDeep) else None;
    }

    method Save(id: Id, v: Value, deleted: bool, size: nat) returns (refused: Option<Refusal>)
      requires Valid()
      modifies this
      ensures var out := WikiTree.Save(old(View()), id, v, deleted, size);
        if out.Done? then refused.None? && View() == out.w else refused == Some(out.why) && View() == old(View())
    {
      refused := Parent(id, v.parent);
      if refused.Some? { return; }
      if PathOwned(pages, id, v.path) { return Some(PathTaken); }
      var revision := if id in pages then pages[id].revision + 1 else 1;
      if bytes + size > HISTORY_BYTES { return Some(ByteBudget); }
      bytes := bytes + size;
      pages := pages[id := Page(v.path, v.parent, v.body, revision, deleted)];
      version := version + 1;
    }

    /** `POST /pages` */
    method Create(id: Id, v: Value, size: nat) returns (refused: Option<Refusal>)
      requires Valid()
      modifies this
      ensures Valid() && View() == After(old(View()), Post(id, v), size)
      ensures refused.None? == Handle(old(View()), Post(id, v), size).Done?
    {
      HandleKeepsForest(View(), Post(id, v), size);
      if id in pages {
        if !pages[id].deleted && ValueOf(pages[id]) == v { return None; }
        return Some(IdTaken);
      }
      if |pages| >= PAGES { return Some(PageBudget); }
      refused := Save(id, v, false, size);
    }

    /** `PUT /pages/<id>`, which also moves a page or restores a deleted one. */
    method Update(id: Id, expected: nat, v: Value, size: nat) returns (refused: Option<Refusal>)
      requires Valid()
      modifies this
      ensures Valid() && View() == After(old(View()), Put(id, expected, v), size)
      ensures refused.None? == Handle(old(View()), Put(id, expected, v), size).Done?
    {
      HandleKeepsForest(View(), Put(id, expected, v), size);
      if id !in pages { return Some(NotFound); }
      if expected != pages[id].revision { return Some(Stale); }
      refused := Save(id, v, false, size);
    }

    /** `DELETE /pages/<id>` */
    method Remove(id: Id, expected: nat, size: nat) returns (refused: Option<Refusal>)
      requires Valid()
      modifies this
      ensures Valid() && View() == After(old(View()), Delete(id, expected), size)
      ensures refused.None? == Handle(old(View()), Delete(id, expected), size).Done?
    {
      HandleKeepsForest(View(), Delete(id, expected), size);
      if id !in pages { return Some(NotFound); }
      if expected != pages[id].revision { return Some(Stale); }
      if Kids(pages, Some(id)) != {} { return Some(HasChildren); }
      refused := Save(id, ValueOf(pages[id]), true, size);
    }

    method First(rows: set<Id>, up: bool) returns (x: Option<Id>)
      requires Valid() && rows <= pages.Keys
      ensures x == Pick(pages, rows, up)
    {
      if rows == {} { return None; }
      ghost var best0 := PickExists(pages, rows, up);
      var best :| best in rows && forall y | y in rows && y != best :: Ahead(pages, up, best, y);
      PickOnce(pages, rows, up, best);
      return Some(best);
    }

    /** The navigation of a live page: its ancestors from the root down, and its
        neighbours. No loop is cut short by its bound. */
    method Navigate(id: Id) returns (ancestors: seq<Id>, previous: Option<Id>, next: Option<Id>)
      requires Valid() && Live(pages, id)
      ensures ancestors == Ancestors(pages, id)
      ensures previous == Previous(pages, id)
      ensures next == Next(pages, id)
    {
      ancestors := AncestorRows(id);
      AncestorsLast(pages, id);
      previous := First(Further(pages, id, false), false);
      if previous.Some? {
        SiblingIs(pages, id, false);
        var last := Descend(previous.value);
        previous := Some(last);
      } else if ancestors != [] {
        previous := Some(ancestors[|ancestors| - 1]);
      }
      next := First(Kids(pages, Some(id)), true);
      if next.None? { next := NearestFollowing(id, ancestors); }
    }

    method AncestorRows(id: Id) returns (ancestors: seq<Id>)
      requires Valid() && Live(pages, id)
      ensures ancestors == Ancestors(pages, id)
    {
      ancestors := [];
      var parent := pages[id].parent;
      HeightOfChild(pages, id);
      while parent.Some? && |ancestors| < 32
        invariant |ancestors| <= 32
        invariant parent.Some? ==> Live(pages, parent.value) && Height(pages, parent.value) + |ancestors| + 1 == Height(pages, id)
        invariant Ancestors(pages, id) == (if parent.Some? then Ancestors(pages, parent.value) + [parent.value] else []) + ancestors
      {
        var row := parent.value;
        HeightOfChild(pages, row);
        ancestors := [row] + ancestors;
        parent := pages[row].parent;
      }
    }

    method Descend(from: Id) returns (last: Id)
      requires Valid() && Live(pages, from)
      ensures last == LastBelow(pages, from)
    {
      last := from;
      var depth := 0;
      while depth < 32
        invariant depth <= 32 && Live(pages, last) && LastBelow(pages, last) == LastBelow(pages, from)
        invariant Height(pages, last) >= depth
      {
        ChildIs(pages, last, false);
        var child := First(Kids(pages, Some(last)), false);
        if child.None? { break; }
        last, depth := child.value, depth + 1;
      }
      ChildIs(pages, last, false);
    }

    method NearestFollowing(id: Id, ancestors: seq<Id>) returns (next: Option<Id>)
      requires Valid() && Live(pages, id) && ancestors == Ancestors(pages, id)
      ensures next == Climb(pages, id)
    {
      var row, i := id, 0;
      while true
        invariant i <= |ancestors| && Live(pages, row) && Climb(pages, row) == Climb(pages, id)
        invariant Ancestors(pages, row) == ancestors[..|ancestors| - i]
        decreases |ancestors| - i
      {
        SiblingIs(pages, row, true);
        AncestorsLast(pages, row);
        next := First(Further(pages, row, true), true);
        if next.Some? || i == |ancestors| { break; }
        row, i := ancestors[|ancestors| - 1 - i], i + 1;
      }
    }
  }

  /** The parents of a page from its root down. */
  ghost function Ancestors(pages: map<Id, Page>, id: Id): seq<Id>
    requires Forest(pages) && Live(pages, id)
    decreases Height(pages, id)
  {
    HeightOfChild(pages, id);
    if pages[id].parent.None? then [] else Ancestors(pages, pages[id].parent.value) + [pages[id].parent.value]
  }

  lemma AncestorsLast(pages: map<Id, Page>, id: Id)
    requires Forest(pages) && Live(pages, id)
    ensures var a := Ancestors(pages, id);
      if pages[id].parent.None? then a == []
      else a != [] && a[|a| - 1] == pages[id].parent.value && Live(pages, a[|a| - 1]) && Ancestors(pages, a[|a| - 1]) == a[..|a| - 1]
  {
    HeightOfChild(pages, id);
  }

  lemma NoneAt(pages: map<Id, Page>, id: Id)
    requires Forest(pages)
    ensures Level(pages, id, LEVELS + 1) == {}
  {
    var deep := Level(pages, id, LEVELS + 1);
    forall d ensures d !in deep { NoneDeeper(pages, id, d); }
  }
}
