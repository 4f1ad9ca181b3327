/** The page tree of a wiki: what a save checks, and the requests that save. */
module WikiTree {
  import opened Options

  type Id = nat

  /** `body` stands for the title, Markdown, aliases, tags and author. */
  datatype Page = Page(path: string, parent: Option<Id>, body: nat, revision: nat, deleted: bool)
  datatype Value = Value(path: string, parent: Option<Id>, body: nat)
  datatype Wiki = Wiki(pages: map<Id, Page>, bytes: nat, version: nat)

  datatype Refusal = NotFound | Hierarchy | TooDeep | PathTaken | IdTaken | HasChildren | Stale | PageBudget | ByteBudget
  datatype Outcome = Done(w: Wiki) | Refused(why: Refusal)
  datatype Walked = Depth(n: nat) | Bad(why: Refusal)

  const LEVELS := 32
  const PAGES := 10000
  const HISTORY_BYTES := 1073741824

  predicate Live(pages: map<Id, Page>, id: Id) { id in pages && !pages[id].deleted }

  function Kids(pages: map<Id, Page>, parent: Option<Id>): set<Id> {
    set c | c in pages && !pages[c].deleted && pages[c].parent == parent
  }

  /** One step of the recursive query: the live children of some pages. */
  function Under(pages: map<Id, Page>, level: set<Id>): set<Id> {
    set c | c in pages && !pages[c].deleted && pages[c].parent.Some? && pages[c].parent.value in level
  }

  /** The live pages `k` levels below a page. */
  function Level(pages: map<Id, Page>, id: Id, k: nat): set<Id> {
    if k == 0 then {id} else Under(pages, Level(pages, id, k - 1))
  }

  function Deepest(pages: map<Id, Page>, id: Id, k: nat): nat
    decreases LEVELS + 1 - k
  {
    if k > LEVELS || Level(pages, id, k + 1) == {} then k else Deepest(pages, id, k + 1)
  }

  /** The recursive query: how far the live subtree of a page reaches down. Its
      levels run out by the 33rd, as no live page of a forest lies deeper. */
  function Below(pages: map<Id, Page>, id: Id): nat { Deepest(pages, id, 0) }

  /** The loop of `parent`: up from the proposed parent to a root. */
  function Walk(pages: map<Id, Page>, id: Id, current: Option<Id>, depth: nat): Walked
    decreases LEVELS - depth
  {
    match current
    case None => Depth(depth)
    case Some(c) =>
      if c == id || depth >= LEVELS then Bad(Hierarchy)
      else if !Live(pages, c) then Bad(NotFound)
      else Walk(pages, id, pages[c].parent, depth + 1)
  }

  predicate PathOwned(pages: map<Id, Page>, id: Id, path: string) {
    exists other | other in pages :: other != id && pages[other].path == path
  }

  function Save(w: Wiki, id: Id, v: Value, deleted: bool, size: nat): Outcome {
    var up := Walk(w.pages, id, v.parent, 0);
    if up.Bad? then Refused(up.why)
    else if up.n + Below(w.pages, id) > LEVELS then Refused(TooDeep)
    else if PathOwned(w.pages, id, v.path) then Refused(PathTaken)
    else if w.bytes + size > HISTORY_BYTES then Refused(ByteBudget)
    else
      var revision := if id in w.pages then w.pages[id].revision + 1 else 1;
      Done(Wiki(w.pages[id := Page(v.path, v.parent, v.body, revision, deleted)], w.bytes + size, w.version + 1))
  }

  function ValueOf(p: Page): Value { Value(p.path, p.parent, p.body) }

  datatype Request =
    | Post(id: Id, value: Value)
    | Put(id: Id, expected: nat, value: Value)
    | Delete(id: Id, expected: nat)

  /** `size` is the length of the new revision's snapshot. */
  function Handle(w: Wiki, r: Request, size: nat): Outcome {
    match r
    case Post(id, v) =>
      if id in w.pages then
        if !w.pages[id].deleted && ValueOf(w.pages[id]) == v then Done(w) else Refused(IdTaken)
      else if |w.pages| >= PAGES then Refused(PageBudget)
      else Save(w, id, v, false, size)
    case Put(id, expected, v) =>
      if id !in w.pages then Refused(NotFound)
      else if expected != w.pages[id].revision then Refused(Stale)
      else Save(w, id, v, false, size)
    case Delete(id, expected) =>
      if id !in w.pages then Refused(NotFound)
      else if expected != w.pages[id].revision then Refused(Stale)
      else if Kids(w.pages, Some(id)) != {} then Refused(HasChildren)
      else Save(w, id, ValueOf(w.pages[id]), true, size)
  }

  /** A refused request changes nothing: its transaction is rolled back. */
  function After(w: Wiki, r: Request, size: nat): Wiki {
    var out := Handle(w, r, size);
    if out.Done? then out.w else w
  }

  function Run(w: Wiki, rs: seq<(Request, nat)>): Wiki
    decreases |rs|
  {
    if rs == [] then w else Run(After(w, rs[0].0, rs[0].1), rs[1..])
  }

  // ---- What the tree is meant to be ----

  /** A page is live and exactly `n` live ancestors lead from it to a root. */
  ghost predicate Rooted(pages: map<Id, Page>, id: Id, n: nat)
    decreases n
  {
    && Live(pages, id)
    && match pages[id].parent
       case None => n == 0
       case Some(p) => n > 0 && Rooted(pages, p, n - 1)
  }

  ghost predicate Placed(pages: map<Id, Page>, id: Id) {
    exists n: nat :: n <= LEVELS && Rooted(pages, id, n)
  }

  /** Every live page hangs from a root by at most 32 live ancestors, and no two
      pages, deleted ones included, share a path. */
  ghost predicate Forest(pages: map<Id, Page>) {
    && (forall id | Live(pages, id) :: Placed(pages, id))
    && (forall a, b | a in pages && b in pages && pages[a].path == pages[b].path :: a == b)
  }

  /** `d` lies `k` levels below `id`, through live pages. */
  ghost predicate Descends(pages: map<Id, Page>, d: Id, id: Id, k: nat)
    decreases k
  {
    if k == 0 then d == id
    else Live(pages, d) && pages[d].parent.Some? && Descends(pages, pages[d].parent.value, id, k - 1)
  }
}
