/** The rewriting loops, the references they collect, and what an export does with both. */
module LinkWriter {
  import opened Options
  import opened Links
  import opened Texts
  import opened LinksProofs

  method LineContent(m: Matchers, line: Text, consumed: bool, st: State) returns (content: Text, lists: seq<nat>)
    ensures Content(content, lists) == ContentOf(m, line, consumed, st)
  {
    content := if consumed then [] else Drop(line, m.quote(line));
    lists := st.lists;
    if st.inline == [] && st.fence == [] && st.html == NoHtml && !m.blank(content) {
      var indent := Indent(content);
      while lists != [] && indent < lists[|lists| - 1]
        invariant PopLists(lists, indent) == PopLists(st.lists, indent)
        decreases |lists|
      {
        lists := lists[..|lists| - 1];
      }
      var base := LastOf(lists);
      content := Drop(content, base);
      var bullet := m.bullet(content);
      if bullet > 0 {
        lists := lists + [base + bullet];
        content := Drop(content, bullet);
      }
    } else if lists != [] {
      content := Drop(content, Min(Indent(content), LastOf(lists)));
    }
  }

  lemma OneMore(source: Text, done: seq<Piece>, p: Piece, destination: Destination)
    requires InSource(source, p) && AllInSource(source, done)
    ensures AllInSource(source, done + [p])
    ensures WriteAll(source, done + [p], destination) == WriteAll(source, done, destination) + Written(source, p, destination)
    ensures Asked(done + [p]) == if p.Copy? then Asked(done) else Asked(done) + [p.target]
  {
    hide InSource, Written;
    WriteJoin(source, done, [p], destination);
    AskedJoin(done, [p]);
    assert WriteAll(source, [p], destination) == Written(source, p, destination) + [];
  }

  /** Writes one stretch, asking for its target if it has one. */
  method Emit(source: Text, p: Piece, destination: Destination, result: Text, asked: seq<Target>, ghost done: seq<Piece>)
    returns (result': Text, asked': seq<Target>)
    requires InSource(source, p) && AllInSource(source, done)
    requires result == WriteAll(source, done, destination) && asked == Asked(done)
    ensures AllInSource(source, done + [p])
    ensures result' == WriteAll(source, done + [p], destination) && asked' == Asked(done + [p])
  {
    hide WriteAll, Asked, AllInSource;
    OneMore(source, done, p, destination);
    if p.Copy? { return result + source[p.from..p.to], asked; }
    asked' := asked + [p.target];
    var target := destination(p.target);
    if target.None? || target.value == [] {
      result' := result + source[p.from..p.to];
    } else if p.Auto? {
      result' := result + ([OPEN] + source[p.from + 1..p.to - 1] + [CLOSE, 40] + target.value + [41]);
    } else {
      result' := result + (source[p.from..p.from + p.prefix] + target.value);
    }
  }

  /** The character loop of a line. */
  method WriteChars(m: Matchers, source: Text, from: nat, end: nat, st: State, destination: Destination,
      result: Text, asked: seq<Target>, ghost before: seq<Piece>)
    returns (result': Text, asked': seq<Target>, st': State)
    requires Proper(m) && end <= |source| && from <= |source|
    requires AllInSource(source, before) && result == WriteAll(source, before, destination) && asked == Asked(before)
    ensures var r := ScanChars(m, source, from, end, st);
      && AllInSource(source, before + r.pieces) && st' == r.st
      && result' == WriteAll(source, before + r.pieces, destination) && asked' == Asked(before + r.pieces)
  {
    hide Proper, WriteAll, Asked, Next;
    result', asked', st' := result, asked, st;
    var i := from;
    ghost var done := before;
    while i < end
      invariant i <= |source|
      invariant AllInSource(source, done) && result' == WriteAll(source, done, destination) && asked' == Asked(done)
      invariant var r, all := ScanChars(m, source, i, end, st'), ScanChars(m, source, from, end, st);
        done + r.pieces == before + all.pieces && r.st == all.st
      decreases |source| - i
    {
      var step := Next(m, source, i, end, st');
      NextIs(m, source, i, end, st');
      result', asked' := Emit(source, step.piece, destination, result', asked', done);
      ghost var rest := ScanChars(m, source, step.piece.to, end, step.st).pieces;
      assert done + ([step.piece] + rest) == done + [step.piece] + rest;
      done := done + [step.piece];
      i, st' := step.piece.to, step.st;
    }
    assert done + [] == done;
  }

  /** One row: skipped, copied as code or HTML, or searched for links. */
  method WriteLine(m: Matchers, source: Text, at: nat, end: nat, st: State, destination: Destination,
      result: Text, asked: seq<Target>, ghost before: seq<Piece>)
    returns (result': Text, asked': seq<Target>, st': State)
    requires Proper(m) && at <= end <= |source| && Between(source, at, st)
    requires AllInSource(source, before) && result == WriteAll(source, before, destination) && asked == Asked(before)
    ensures var r := ScanLine(m, source, at, end, st);
      && AllInSource(source, before + r.pieces) && st' == r.st
      && result' == WriteAll(source, before + r.pieces, destination) && asked' == Asked(before + r.pieces)
  {
    hide WriteAll, Asked, ScanChars, ContentOf, HtmlAfter;
    result', asked', st' := result, asked, st;
    var line := source[at..end];
    if end <= st.skipTo {
      assert before + [] == before;
      return;
    }
    if st.html == Block {
      if m.blank(line) { st' := st'.(html := NoHtml); }
    } else {
      var c, lists := LineContent(m, line, st.skipTo > at, st);
      var mark := m.mark(c);
      st' := st'.(lists := lists);
      if st.fence != [] {
        if mark.Some? && mark.value[0] == st.fence[0] && |mark.value| >= |st.fence| && m.closing(c) { st' := st'.(fence := []); }
      } else if mark.Some? && st.inline == [] {
        st' := st'.(fence := mark.value);
      } else if st.inline == [] && (m.indented(c) || (m.tag(c) && !m.autolinkLine(c))) {
        st' := st'.(html := HtmlAfter(m, c, st.html));
      } else if st.html.Until? {
        if m.contains(c, st.html.end) { st' := st'.(html := NoHtml); }
      } else {
        var from := if st.skipTo > at then st.skipTo else at;
        result', asked', st' := WriteChars(m, source, from, end, st', destination, result, asked, before);
        return;
      }
    }
    result', asked' := Emit(source, Copy(at, end), destination, result, asked, before);
  }

  /** Rewrites every destination that resolves and returns, besides the text, the
      targets it asked for: they do not depend on the answers. */
  method Rewrite(m: Matchers, source: Text, destination: Destination) returns (result: Text, asked: seq<Target>)
    requires Proper(m)
    ensures asked == Asked(Pieces(m, source))
    ensures AllInSource(source, Pieces(m, source)) && result == WriteAll(source, Pieces(m, source), destination)
    ensures Silent(destination, asked) ==> result == source
  {
    hide Proper, WriteAll, Asked, ScanLine, Silent;
    result, asked := [], [];
    var at, st := 0, START;
    ghost var done: seq<Piece> := [];
    EmptyWrites(source, destination);
    while true
      invariant at <= |source| && Between(source, at, st)
      invariant done + ScanFrom(m, source, at, st) == Pieces(m, source)
      invariant AllInSource(source, done) && result == WriteAll(source, done, destination) && asked == Asked(done)
      decreases |source| - at
    {
      var end := LineEnd(source, at);
      ghost var line := ScanLine(m, source, at, end, st);
      LineTiles(m, source, at, end, st);
      result, asked, st := WriteLine(m, source, at, end, st, destination, result, asked, done);
      if end == at {
        assert done + (line.pieces + []) == done + line.pieces;
        done := done + line.pieces;
        break;
      }
      assert done + (line.pieces + ScanFrom(m, source, end, line.st)) == done + line.pieces + ScanFrom(m, source, end, line.st);
      done := done + line.pieces;
      at := end;
    }
    if Silent(destination, asked) { NothingResolvedNothingChanged(m, source, destination); }
  }

  lemma EmptyWrites(source: Text, destination: Destination)
    ensures WriteAll(source, [], destination) == [] && Asked([]) == []
  {
  }

  /** `exportReferences`: the same loop with a destination that only collects. */
  method References(m: Matchers, source: Text) returns (pages: set<Text>, attachments: set<Text>)
    requires Proper(m)
    ensures forall id :: id in pages <==> Target(Page, id) in Asked(Pieces(m, source))
    ensures forall id :: id in attachments <==> Target(Attachment, id) in Asked(Pieces(m, source))
  {
    hide Proper, Pieces;
    var _, asked := Rewrite(m, source, _ => None);
    pages, attachments := {}, {};
    var i := 0;
    while i < |asked|
      invariant 0 <= i <= |asked|
      invariant forall id :: id in pages <==> Target(Page, id) in asked[..i]
      invariant forall id :: id in attachments <==> Target(Attachment, id) in asked[..i]
    {
      if asked[i].kind == Page { pages := pages + {asked[i].id}; } else { attachments := attachments + {asked[i].id}; }
      assert asked[..i + 1] == asked[..i] + [asked[i]];
      i := i + 1;
    }
    assert asked[..i] == asked;
  }

  // ---- Relative paths ----

  type Segments = seq<Text>

  const SLASH: Unit := 47
  const DOT: Text := [46]
  const UP: Text := [46, 46]

  function Split(t: Text): (r: Segments)
    ensures r != []
  {
    if t == [] then [[]]
    else
      var rest := Split(t[1..]);
      if t[0] == SLASH then [[]] + rest else [[t[0]] + rest[0]] + rest[1..]
  }

  function Join(s: Segments): Text {
    if s == [] then [] else if |s| == 1 then s[0] else s[0] + [SLASH] + Join(s[1..])
  }

  predicate SlashFree(s: Segments) { forall x | x in s :: SLASH !in x }

  /** A segment that is a name: not empty, and neither here nor up. */
  predicate Plain(x: Text) { x != [] && x != DOT && x != UP && SLASH !in x }

  /** The directory a file name stands in. */
  function Dir(file: Text): Segments {
    var s := Split(file); s[..|s| - 1]
  }

  /** What is left of two paths after their common start. */
  function Strip(a: Segments, b: Segments): (Segments, Segments) {
    if a != [] && b != [] && a[0] == b[0] then Strip(a[1..], b[1..]) else (a, b)
  }

  function Ups(n: nat): Segments { if n == 0 then [] else [UP] + Ups(n - 1) }

  function Encoded(b: Segments, encode: Text -> Text): Segments { if b == [] then [] else [encode(b[0])] + Encoded(b[1..], encode) }

  function Relative(from: Text, to: Text, encode: Text -> Text): Text {
    var (a, b) := Strip(Dir(from), Split(to));
    Join(Ups(|a|) + Encoded(b, encode))
  }

  /** `relativeFile`. */
  method RelativeFile(from: Text, to: Text, encode: Text -> Text) returns (path: Text)
    ensures path == Relative(from, to, encode)
  {
    var a, b := Split(from), Split(to);
    a := a[..|a| - 1];
    while a != [] && b != [] && a[0] == b[0]
      invariant Strip(a, b) == Strip(Dir(from), Split(to))
      decreases |a|
    {
      a, b := a[1..], b[1..];
    }
    path := Join(Ups(|a|) + Encoded(b, encode));
  }

  /** `encodeURIComponent` and the decoding of a link: an encoded name has no slash
      and is a name again. */
  ghost predicate Encodes(encode: Text -> Text, decode: Text -> Text) {
    forall x | Plain(x) :: Plain(encode(x)) && decode(encode(x)) == x
  }

  /** Where a relative path leads from a directory. */
  function Resolve(dir: Segments, path: Segments, decode: Text -> Text): Segments
    decreases |path|
  {
    if path == [] then dir
    else if path[0] == UP then Resolve(if dir == [] then [] else dir[..|dir| - 1], path[1..], decode)
    else if path[0] == DOT then Resolve(dir, path[1..], decode)
    else Resolve(dir + [decode(path[0])], path[1..], decode)
  }

  lemma SplitCons(c: Unit, t: Text)
    ensures Split([c] + t) == if c == SLASH then [[]] + Split(t) else [[c] + Split(t)[0]] + Split(t)[1..]
  {
    assert ([c] + t)[1..] == t;
  }

  lemma JoinCons(c: Unit, x: Text, rest: Segments)
    ensures Join([[c] + x] + rest) == [c] + Join([x] + rest)
  {
    assert ([[c] + x] + rest)[1..] == rest == ([x] + rest)[1..];
  }

  lemma {:induction false} SplitJoin(s: Segments)
    requires s != [] && SlashFree(s)
    ensures Split(Join(s)) == s
    decreases |s|, |s[0]|
  {
    hide Split, Join;
    assert s[0] in s;
    var rest := s[1..];
    assert s == [s[0]] + rest;
    if s[0] != [] {
      var c, x := s[0][0], s[0][1..];
      var shorter := [x] + rest;
      assert s[0] == [c] + x && shorter[1..] == rest;
      forall y | y in shorter ensures SLASH !in y { assert y == x || y in s; }
      SplitJoin(shorter);
      JoinCons(c, x, rest);
      SplitCons(c, Join(shorter));
    } else if rest != [] {
      SplitJoin(rest);
      SplitCons(SLASH, Join(rest));
      JoinEmpty(rest);
    } else {
      assert s == [[]];
      NothingSplits();
    }
  }

  lemma JoinEmpty(rest: Segments)
    requires rest != []
    ensures Join([[]] + rest) == [SLASH] + Join(rest)
  {
    assert ([[]] + rest)[1..] == rest;
  }

  lemma NothingSplits()
    ensures Split(Join([[]])) == [[]]
  {
  }

  lemma {:induction false} UpsResolve(common: Segments, a: Segments, rest: Segments, decode: Text -> Text)
    ensures Resolve(common + a, Ups(|a|) + rest, decode) == Resolve(common, rest, decode)
    decreases |a|
  {
    if a == [] {
      assert common + a == common && Ups(0) + rest == rest;
    } else {
      var shorter := a[..|a| - 1];
      assert (common + a)[..|common + a| - 1] == common + shorter;
      assert (Ups(|a|) + rest)[1..] == Ups(|a| - 1) + rest;
      UpsResolve(common, shorter, rest, decode);
    }
  }

  lemma {:induction false} EncodedResolve(dir: Segments, b: Segments, encode: Text -> Text, decode: Text -> Text)
    requires Encodes(encode, decode) && forall x | x in b :: Plain(x)
    ensures Resolve(dir, Encoded(b, encode), decode) == dir + b
    ensures forall x | x in Encoded(b, encode) :: Plain(x)
    ensures |Encoded(b, encode)| == |b|
    decreases |b|
  {
    if b == [] {
      assert dir + b == dir;
    } else {
      assert b[0] in b;
      assert dir + [b[0]] + b[1..] == dir + b;
      EncodedResolve(dir + [b[0]], b[1..], encode, decode);
    }
  }

  /** The common start that is stripped. */
  lemma {:induction false} StripIs(a: Segments, b: Segments) returns (common: Segments)
    ensures var (x, y) := Strip(a, b); a == common + x && b == common + y
    decreases |a|
  {
    if a != [] && b != [] && a[0] == b[0] {
      var rest := StripIs(a[1..], b[1..]);
      common := [a[0]] + rest;
    } else {
      common := [];
    }
  }

  lemma {:induction false} UpsAre(n: nat)
    ensures |Ups(n)| == n && forall x | x in Ups(n) :: x == UP
    decreases n
  {
    if n > 0 { UpsAre(n - 1); }
  }

  lemma JoinNotEmpty(s: Segments)
    requires s != [] && s[0] != []
    ensures Join(s) != []
  {
  }

  /** The relative path is never empty and leads from the directory of one file to
      the other, unless that other one is the very directory. */
  lemma RelativeLeads(from: Text, to: Text, encode: Text -> Text, decode: Text -> Text)
    requires Encodes(encode, decode) && (forall x | x in Split(to) :: Plain(x)) && Split(to) != Dir(from)
    ensures Relative(from, to, encode) != []
    ensures Resolve(Dir(from), Split(Relative(from, to, encode)), decode) == Split(to)
  {
    hide Split, Join, Strip, Plain, Resolve, Encoded, Encodes;
    var common := StripIs(Dir(from), Split(to));
    var (a, b) := Strip(Dir(from), Split(to));
    var path := Ups(|a|) + Encoded(b, encode);
    UpsResolve(common, a, Encoded(b, encode), decode);
    EncodedResolve(common, b, encode, decode);
    UpsAre(|a|);
    assert path != [];
    PathPlain(path);
    SplitJoin(path);
    JoinNotEmpty(path);
  }

  lemma PathPlain(path: Segments)
    requires path != [] && forall x | x in path :: x == UP || Plain(x)
    ensures SlashFree(path) && path[0] != []
  {
    assert path[0] in path;
  }

  // ---- The links of an export ----

  const ATTACHMENTS: Text := [97, 116, 116, 97, 99, 104, 109, 101, 110, 116, 115]
  const PAGES: Text := [112, 97, 103, 101, 115]

  /** Where the bundle keeps an attachment. */
  function AttachmentFile(id: Text, name: Text): Text { Join([ATTACHMENTS, id, name]) }

  /** A page file is at the top of the bundle, or below `pages`. */
  predicate PageFile(file: Text) { Dir(file) == [] || Dir(file)[0] == PAGES }

  /** The destination of an export: the bundled file of a page or attachment, as a
      path relative to the file being written. */
  function Bundled(from: Text, pages: map<Text, Text>, files: map<Text, Text>, encode: Text -> Text): Destination {
    (t: Target) => var known := if t.kind == Page then pages else files;
      if t.id in known && known[t.id] != [] then Some(Relative(from, known[t.id], encode)) else None
  }

  lemma AttachmentLeads(from: Text, id: Text, name: Text, encode: Text -> Text, decode: Text -> Text)
    requires PageFile(from) && Plain(id) && Plain(name) && Encodes(encode, decode)
    ensures var file := AttachmentFile(id, name);
      && file != [] && Relative(from, file, encode) != [] && Split(file) == [ATTACHMENTS, id, name]
      && Resolve(Dir(from), Split(Relative(from, file, encode)), decode) == Split(file)
  {
    hide Split, Relative, Resolve, Encodes;
    var file := AttachmentFile(id, name);
    assert Plain(ATTACHMENTS);
    SplitJoin([ATTACHMENTS, id, name]);
    JoinNotEmpty([ATTACHMENTS, id, name]);
    assert ATTACHMENTS != PAGES;
    RelativeLeads(from, file, encode, decode);
  }

  lemma {:induction false} IsAsked(pieces: seq<Piece>, p: Piece)
    requires p in pieces && !p.Copy?
    ensures p.target in Asked(pieces)
    decreases |pieces|
  {
    if p != pieces[0] { IsAsked(pieces[1..], p); }
  }

  /** A piece with its destination put in. */
  function Rewritten(source: Text, p: Piece, path: Text): Text
    requires InSource(source, p) && !p.Copy?
  {
    if p.Auto? then [OPEN] + source[p.from + 1..p.to - 1] + [CLOSE, 40] + path + [41] else source[p.from..p.from + p.prefix] + path
  }

  /** Once every attachment that was collected is bundled, each link to an
      attachment is rewritten, to a path that leads from the page to its file. */
  lemma EveryAttachmentResolves(m: Matchers, source: Text, from: Text, attachments: set<Text>, pages: map<Text, Text>,
    names: map<Text, Text>, encode: Text -> Text, decode: Text -> Text)
    requires Proper(m) && PageFile(from) && Encodes(encode, decode)
    requires forall id :: id in attachments <==> Target(Attachment, id) in Asked(Pieces(m, source))
    requires forall id | id in attachments :: id in names
    requires forall id | id in names :: Plain(id) && Plain(names[id])
    ensures AllInSource(source, Pieces(m, source))
    ensures var files := map id | id in names :: AttachmentFile(id, names[id]);
      forall p | p in Pieces(m, source) && !p.Copy? && p.target.kind == Attachment ::
        && p.target.id in files
        && var path := Relative(from, files[p.target.id], encode);
           && Written(source, p, Bundled(from, pages, files, encode)) == Rewritten(source, p, path)
           && Resolve(Dir(from), Split(path), decode) == Split(files[p.target.id])
  {
    hide Proper, Pieces, AttachmentFile, Relative, Resolve, Split, PageFile, Plain, Encodes, Tiles;
    PiecesTile(m, source);
    TilesInSource(source, Pieces(m, source), 0, |source|);
    forall p | p in Pieces(m, source) && !p.Copy? && p.target.kind == Attachment
      ensures p.target.id in names
      ensures var file := AttachmentFile(p.target.id, names[p.target.id]);
        && file != [] && Relative(from, file, encode) != []
        && Resolve(Dir(from), Split(Relative(from, file, encode)), decode) == Split(file)
    {
      IsAsked(Pieces(m, source), p);
      assert p.target == Target(Attachment, p.target.id);
      AttachmentLeads(from, p.target.id, names[p.target.id], encode, decode);
    }
  }
}
