/** The pieces tile the source, so only destinations that resolve change anything. */
module LinksProofs {
  import opened Links
  import opened Texts

  /** Consecutive stretches from one place to another. */
  ghost predicate Tiles(source: Text, pieces: seq<Piece>, from: nat, to: nat) {
    if pieces == [] then from == to
    else pieces[0].from == from && InSource(source, pieces[0]) && Tiles(source, pieces[1..], pieces[0].to, to)
  }

  lemma {:induction false} TilesJoin(source: Text, a: seq<Piece>, b: seq<Piece>, from: nat, mid: nat, to: nat)
    requires Tiles(source, a, from, mid) && Tiles(source, b, mid, to)
    ensures Tiles(source, a + b, from, to)
    decreases |a|
  {
    if a == [] {
      assert a + b == b;
    } else {
      assert (a + b)[1..] == a[1..] + b;
      TilesJoin(source, a[1..], b, a[0].to, mid, to);
    }
  }

  function Max(a: nat, b: nat): nat { if a > b then a else b }

  /** The characters of a line are covered to its end, or further by a destination
      that crosses it. */
  lemma {:induction false} CharsTile(m: Matchers, source: Text, at: nat, end: nat, st: State)
    requires Proper(m) && end <= |source| && st.skipTo <= at <= |source|
    requires at > end ==> st.skipTo == at
    ensures var r := ScanChars(m, source, at, end, st);
      && Tiles(source, r.pieces, at, Max(Max(at, end), r.st.skipTo))
      && r.st.skipTo <= |source| && r.st.fence == st.fence && r.st.html == st.html && r.st.lists == st.lists
    decreases |source| - at
  {
    hide Proper;
    if at < end {
      var step := Next(m, source, at, end, st);
      NextIs(m, source, at, end, st);
      hide Next;
      CharsTile(m, source, step.piece.to, end, step.st);
    }
  }

  lemma NextIs(m: Matchers, source: Text, at: nat, end: nat, st: State)
    requires Proper(m) && at < end <= |source|
    ensures var r := Next(m, source, at, end, st);
      && InSource(source, r.piece) && r.piece.from == at < r.piece.to
      && r.st.fence == st.fence && r.st.html == st.html && r.st.lists == st.lists
      && r.st.skipTo == (if r.piece.Link? then r.piece.to else st.skipTo)
      && (r.piece.to > end ==> r.piece.Link?)
  {
  }

  /** Between lines: a destination crosses into the next one only where no fence or
      HTML is open, and never past the end. */
  ghost predicate Between(source: Text, at: nat, st: State) {
    && at <= |source| && st.skipTo <= |source|
    && (st.skipTo > at ==> st.fence == [] && st.html.NoHtml?)
  }

  /** A line whose start was consumed is never taken for a block of its own. */
  lemma ConsumedContent(m: Matchers, line: Text, st: State)
    requires Proper(m)
    ensures ContentOf(m, line, true, st).text == []
  {
  }

  lemma CopyTiles(source: Text, at: nat, end: nat)
    requires at <= end <= |source|
    ensures Tiles(source, [Copy(at, end)], at, end) && Tiles(source, [], at, at)
  {
  }

  lemma LineTiles(m: Matchers, source: Text, at: nat, end: nat, st: State)
    requires Proper(m) && at <= end <= |source| && Between(source, at, st)
    ensures var r := ScanLine(m, source, at, end, st);
      && Between(source, end, r.st)
      && Tiles(source, r.pieces, Max(at, st.skipTo), Max(end, r.st.skipTo))
  {
    hide ContentOf, HtmlAfter, ScanChars, Proper, Tiles;
    CopyTiles(source, at, end);
    CopyTiles(source, st.skipTo, st.skipTo);
    ConsumedContent(m, source[at..end], st);
    EmptyOpensNothing(m);
    var st1 := st.(lists := ContentOf(m, source[at..end], st.skipTo > at, st).lists);
    if end > st.skipTo { CharsTile(m, source, Max(at, st.skipTo), end, st1); }
  }

  lemma EmptyOpensNothing(m: Matchers)
    requires Proper(m)
    ensures m.mark([]).None? && !m.indented([]) && !m.tag([])
  {
  }

  lemma {:induction false} FromTiles(m: Matchers, source: Text, at: nat, st: State)
    requires Proper(m) && Between(source, at, st)
    ensures Tiles(source, ScanFrom(m, source, at, st), Max(at, st.skipTo), |source|)
    decreases |source| - at
  {
    hide ScanLine, Proper;
    var end := LineEnd(source, at);
    var line := ScanLine(m, source, at, end, st);
    LineTiles(m, source, at, end, st);
    if end > at {
      FromTiles(m, source, end, line.st);
      TilesJoin(source, line.pieces, ScanFrom(m, source, end, line.st), Max(at, st.skipTo), Max(end, line.st.skipTo), |source|);
    } else {
      assert line.pieces + [] == line.pieces;
    }
  }

  /** The pieces cover the whole source, each place once. */
  lemma PiecesTile(m: Matchers, source: Text)
    requires Proper(m)
    ensures Tiles(source, Pieces(m, source), 0, |source|)
  {
    hide Proper, ScanFrom;
    FromTiles(m, source, 0, START);
  }

  lemma {:induction false} TilesInSource(source: Text, pieces: seq<Piece>, from: nat, to: nat)
    requires Tiles(source, pieces, from, to) && to <= |source|
    ensures AllInSource(source, pieces) && from <= to
    decreases |pieces|
  {
    if pieces != [] { TilesInSource(source, pieces[1..], pieces[0].to, to); }
  }

  ghost predicate Silent(destination: Destination, targets: seq<Target>) {
    forall t | t in targets :: destination(t).None? || destination(t).value == []
  }

  lemma SilentPiece(source: Text, p: Piece, destination: Destination)
    requires InSource(source, p) && (p.Copy? || destination(p.target).None? || destination(p.target).value == [])
    ensures Written(source, p, destination) == source[p.from..p.to]
  {
  }

  lemma {:induction false} SilentWrites(source: Text, pieces: seq<Piece>, from: nat, to: nat, destination: Destination)
    requires Tiles(source, pieces, from, to) && to <= |source| && AllInSource(source, pieces) && Silent(destination, Asked(pieces))
    ensures from <= to && WriteAll(source, pieces, destination) == source[from..to]
    decreases |pieces|
  {
    if pieces != [] {
      hide Written, InSource;
      var p := pieces[0];
      if !p.Copy? { assert p.target in Asked(pieces); }
      forall t | t in Asked(pieces[1..]) ensures destination(t).None? || destination(t).value == [] { assert t in Asked(pieces); }
      SilentWrites(source, pieces[1..], p.to, to, destination);
      SilentPiece(source, p, destination);
      assert source[from..p.to] + source[p.to..to] == source[from..to];
    }
  }

  /** With nothing to resolve the source comes out as it went in, even where a
      destination crosses lines. */
  lemma NothingResolvedNothingChanged(m: Matchers, source: Text, destination: Destination)
    requires Proper(m) && Silent(destination, Asked(Pieces(m, source)))
    ensures AllInSource(source, Pieces(m, source))
    ensures WriteAll(source, Pieces(m, source), destination) == source
  {
    hide *;
    PiecesTile(m, source);
    TilesInSource(source, Pieces(m, source), 0, |source|);
    SilentWrites(source, Pieces(m, source), 0, |source|, destination);
  }

  lemma AskedJoin(a: seq<Piece>, b: seq<Piece>)
    ensures Asked(a + b) == Asked(a) + Asked(b)
    decreases |a|
  {
    if a == [] {
      assert a + b == b;
    } else {
      assert (a + b)[1..] == a[1..] + b;
      AskedJoin(a[1..], b);
    }
  }

  lemma WriteJoin(source: Text, a: seq<Piece>, b: seq<Piece>, destination: Destination)
    requires AllInSource(source, a) && AllInSource(source, b)
    ensures AllInSource(source, a + b)
    ensures WriteAll(source, a + b, destination) == WriteAll(source, a, destination) + WriteAll(source, b, destination)
    decreases |a|
  {
    if a == [] {
      assert a + b == b;
    } else {
      assert (a + b)[1..] == a[1..] + b;
      WriteJoin(source, a[1..], b, destination);
    }
  }

  /** Two destination functions that agree on what is asked write the same. */
  lemma {:induction false} SameAnswersSameText(source: Text, pieces: seq<Piece>, d: Destination, e: Destination)
    requires AllInSource(source, pieces) && forall t | t in Asked(pieces) :: d(t) == e(t)
    ensures WriteAll(source, pieces, d) == WriteAll(source, pieces, e)
    decreases |pieces|
  {
    if pieces != [] {
      forall t | t in Asked(pieces[1..]) ensures d(t) == e(t) { assert t in Asked(pieces); }
      if !pieces[0].Copy? { assert pieces[0].target in Asked(pieces); }
      SameAnswersSameText(source, pieces[1..], d, e);
    }
  }
}
