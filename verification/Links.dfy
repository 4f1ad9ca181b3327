/** The Markdown link rewriter: which stretches of a source it copies and which it
    takes for page and attachment targets. Regular expressions enter as matchers
    that say whether and how far they match. */
module Links {
  import opened Options
  import opened Texts

  const SPACE: Unit := 32
  const OPEN: Unit := 91
  const BACKSLASH: Unit := 92
  const CLOSE: Unit := 93
  const TICK: Unit := 96
  const LESS: Unit := 60

  datatype Kind = Page | Attachment
  datatype Target = Target(kind: Kind, id: Text)

  /** A match at the start of some text: its length and, for a link, the length of
      the part before the destination. */
  datatype Match = Match(length: nat, prefix: nat, target: Target)

  datatype Matchers = Matchers(
    quote: Text -> nat,               // block quote markers, 0 if none
    bullet: Text -> nat,              // a list marker, 0 if none
    mark: Text -> Option<Text>,       // a run of three or more fence characters
    closing: Text -> bool,            // nothing but fence characters
    autolinkLine: Text -> bool,       // a line that starts with a page or attachment autolink
    indented: Text -> bool,           // an indented code line
    tag: Text -> bool,                // a line that starts with <
    comment: Text -> bool,            // a line that starts an HTML comment
    raw: Text -> Option<Text>,        // a raw HTML element, as the text that ends it
    block: Text -> bool,              // an HTML block element
    contains: (Text, Text) -> bool,   // a line holds the text that ends the HTML
    blank: Text -> bool,
    closes: (Text, Text) -> bool,     // the rest of the paragraph holds an equal run of ticks
    auto: Text -> Option<Match>,      // an autolink
    link: Text -> Option<Match>)      // a link destination after ], which may cross lines

  /** What any regular expression keeps to: matches lie inside the text, those with
      a literal first character are not empty, and line openers need a character. */
  ghost predicate Proper(m: Matchers) {
    && (forall t :: m.quote(t) <= |t| && m.bullet(t) <= |t|)
    && (forall t :: m.mark(t).Some? ==> m.mark(t).value != [])
    && (forall t :: m.auto(t).Some? ==> 2 <= m.auto(t).value.length <= |t|)
    && (forall t :: m.link(t).Some? ==> 1 <= m.link(t).value.prefix <= m.link(t).value.length <= |t|)
    && m.mark([]).None? && !m.indented([]) && !m.tag([])
  }

  // ---- Pieces ----

  /** A stretch of the source: copied, an autolink, or a link destination after its prefix. */
  datatype Piece =
    | Copy(from: nat, to: nat)
    | Auto(from: nat, to: nat, target: Target)
    | Link(from: nat, to: nat, prefix: nat, target: Target)

  /** A piece's places are where it says, with room for its delimiters. */
  predicate InSource(source: Text, p: Piece) {
    p.from <= p.to <= |source| && (p.Auto? ==> p.from + 2 <= p.to) && (p.Link? ==> p.from + p.prefix <= p.to)
  }

  datatype Html = NoHtml | Block | Until(end: Text)

  datatype State = State(fence: Text, inline: Text, html: Html, brackets: nat, skipTo: nat, lists: seq<nat>)

  const START := State([], [], NoHtml, 0, 0, [])

  datatype Scanned = Scanned(pieces: seq<Piece>, st: State)

  function Min(a: nat, b: nat): nat { if a < b then a else b }

  function Drop(t: Text, n: nat): Text { if n <= |t| then t[n..] else [] }

  /** Leading spaces. */
  function Indent(t: Text): (n: nat)
    ensures n <= |t|
  {
    if t == [] || t[0] != SPACE then 0 else 1 + Indent(t[1..])
  }

  /** Where the line that starts at `at` ends, its newline included. */
  function LineEnd(source: Text, at: nat): (end: nat)
    requires at <= |source|
    ensures at <= end <= |source| && (at < |source| ==> at < end)
    decreases |source| - at
  {
    if at == |source| then at else if source[at] == NEWLINE then at + 1 else LineEnd(source, at + 1)
  }

  /** The length of a run of ticks inside the line. */
  function TickRun(source: Text, at: nat, end: nat): (n: nat)
    requires at <= end <= |source|
    ensures at + n <= end && (at < end && source[at] == TICK ==> n > 0)
    decreases end - at
  {
    if at == end || source[at] != TICK then 0 else 1 + TickRun(source, at + 1, end)
  }

  function PopLists(lists: seq<nat>, indent: nat): seq<nat> {
    if lists != [] && indent < lists[|lists| - 1] then PopLists(lists[..|lists| - 1], indent) else lists
  }

  function LastOf(lists: seq<nat>): nat { if lists == [] then 0 else lists[|lists| - 1] }

  datatype Content = Content(text: Text, lists: seq<nat>)

  /** The line without quote and list markers, or nothing if its start was consumed
      by a destination that crossed into it. */
  function ContentOf(m: Matchers, line: Text, consumed: bool, st: State): Content {
    var content := if consumed then [] else Drop(line, m.quote(line));
    if st.inline == [] && st.fence == [] && st.html.NoHtml? && !m.blank(content) then
      var lists := PopLists(st.lists, Indent(content));
      var base := LastOf(lists);
      var inner := Drop(content, base);
      var bullet := m.bullet(inner);
      if bullet > 0 then Content(Drop(inner, bullet), lists + [base + bullet]) else Content(inner, lists)
    else if st.lists != [] then Content(Drop(content, Min(Indent(content), LastOf(st.lists))), st.lists)
    else Content(content, st.lists)
  }

  /** The HTML state a line that opens HTML or indented code leaves. */
  function HtmlAfter(m: Matchers, content: Text, html: Html): Html {
    var html1 :=
      if m.comment(content) then Until([45, 45, 62])
      else if m.raw(content).Some? then Until(m.raw(content).value)
      else if m.block(content) then Block
      else html;
    if html1.Until? && m.contains(content, html1.end) then NoHtml else html1
  }

  datatype Step = Step(piece: Piece, st: State)

  /** The next piece inside a line and the state after it. */
  function Next(m: Matchers, source: Text, at: nat, end: nat, st: State): (r: Step)
    requires Proper(m) && at < end <= |source|
    ensures InSource(source, r.piece) && r.piece.from == at < r.piece.to
  {
    if source[at] == BACKSLASH && st.inline == [] then Step(Copy(at, Min(at + 2, end)), st)
    else if source[at] == TICK then
      var n := TickRun(source, at, end);
      var run := source[at..at + n];
      var inline := if st.inline == run then [] else if st.inline == [] && m.closes(source[at + n..], run) then run else st.inline;
      Step(Copy(at, at + n), st.(inline := inline))
    else if st.inline != [] then Step(Copy(at, at + 1), st)
    else
      var auto := if source[at] == LESS then m.auto(source[at..end]) else None;
      var link := if source[at] == CLOSE then m.link(source[at..]) else None;
      if auto.Some? then Step(Auto(at, at + auto.value.length, auto.value.target), st)
      else if link.Some? && st.brackets > 0 then
        var to := at + link.value.length;
        Step(Link(at, to, link.value.prefix, link.value.target), st.(brackets := st.brackets - 1, skipTo := to))
      else
        var brackets :=
          if source[at] == OPEN then st.brackets + 1
          else if source[at] == CLOSE && st.brackets > 0 then st.brackets - 1
          else st.brackets;
        Step(Copy(at, at + 1), st.(brackets := brackets))
  }

  /** The characters of a line from `at` on. */
  function ScanChars(m: Matchers, source: Text, at: nat, end: nat, st: State): Scanned
    requires Proper(m) && end <= |source|
    decreases |source| - at
  {
    if at >= end then Scanned([], st)
    else
      var step := Next(m, source, at, end, st);
      Before(step.piece, ScanChars(m, source, step.piece.to, end, step.st))
  }

  function Before(p: Piece, rest: Scanned): Scanned { rest.(pieces := [p] + rest.pieces) }

  /** One line. */
  function ScanLine(m: Matchers, source: Text, at: nat, end: nat, st: State): Scanned
    requires Proper(m) && at <= end <= |source|
  {
    var line := source[at..end];
    if end <= st.skipTo then Scanned([], st)
    else if st.html.Block? then Scanned([Copy(at, end)], if m.blank(line) then st.(html := NoHtml) else st)
    else
      var content := ContentOf(m, line, st.skipTo > at, st);
      var c, st1 := content.text, st.(lists := content.lists);
      var mark := m.mark(c);
      if st.fence != [] then
        var ends := mark.Some? && mark.value[0] == st.fence[0] && |mark.value| >= |st.fence| && m.closing(c);
        Scanned([Copy(at, end)], if ends then st1.(fence := []) else st1)
      else if mark.Some? && st.inline == [] then Scanned([Copy(at, end)], st1.(fence := mark.value))
      else if st.inline == [] && (m.indented(c) || (m.tag(c) && !m.autolinkLine(c))) then
        Scanned([Copy(at, end)], st1.(html := HtmlAfter(m, c, st.html)))
      else if st.html.Until? then
        Scanned([Copy(at, end)], if m.contains(c, st.html.end) then st1.(html := NoHtml) else st1)
      else ScanChars(m, source, if st.skipTo > at then st.skipTo else at, end, st1)
  }

  /** All lines from `at` on, the empty one at the end included. */
  function ScanFrom(m: Matchers, source: Text, at: nat, st: State): seq<Piece>
    requires Proper(m) && at <= |source|
    decreases |source| - at
  {
    var end := LineEnd(source, at);
    var line := ScanLine(m, source, at, end, st);
    line.pieces + if end == at then [] else ScanFrom(m, source, end, line.st)
  }

  function Pieces(m: Matchers, source: Text): seq<Piece>
    requires Proper(m)
  {
    ScanFrom(m, source, 0, START)
  }

  // ---- Rewriting ----

  type Destination = Target -> Option<Text>

  /** A piece as it is written; an empty destination counts as none. */
  function Written(source: Text, p: Piece, destination: Destination): Text
    requires InSource(source, p)
  {
    if p.Copy? then source[p.from..p.to]
    else
      var d := destination(p.target);
      if d.None? || d.value == [] then source[p.from..p.to]
      else if p.Auto? then [OPEN] + source[p.from + 1..p.to - 1] + [CLOSE, 40] + d.value + [41]
      else source[p.from..p.from + p.prefix] + d.value
  }

  predicate AllInSource(source: Text, pieces: seq<Piece>) { forall p | p in pieces :: InSource(source, p) }

  function WriteAll(source: Text, pieces: seq<Piece>, destination: Destination): Text
    requires AllInSource(source, pieces)
  {
    if pieces == [] then []
    else
      assert pieces[0] in pieces;
      Written(source, pieces[0], destination) + WriteAll(source, pieces[1..], destination)
  }

  /** The targets asked for, in order. */
  function Asked(pieces: seq<Piece>): seq<Target> {
    if pieces == [] then []
    else (if pieces[0].Copy? then [] else [pieces[0].target]) + Asked(pieces[1..])
  }
}
