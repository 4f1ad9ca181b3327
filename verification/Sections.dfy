/** The splitter that cuts a page's Markdown into bounded passages for search. */
module Sections {
  import opened Options
  import opened Texts

  datatype Title = Title(level: nat, text: Text)

  /** The three line patterns: a fence marker, a heading, and a line of nothing but
      fence characters. */
  datatype Patterns = Patterns(mark: Text -> Option<Text>, heading: Text -> Option<Title>, closing: Text -> bool)

  /** `section` numbers the line of the heading, 0 before the first one. */
  datatype Place = Place(section: nat, title: Option<Title>)

  datatype Passage = Passage(place: Place, start: nat, end: nat, body: Text)

  const PART := 3000
  const BODY := 4000

  function Split(s: Text): (lines: seq<Text>)
    ensures lines != [] && forall l | l in lines :: NEWLINE !in l
  {
    if s == [] then [[]]
    else
      var rest := Split(s[1..]);
      if s[0] == NEWLINE then [[]] + rest else [[s[0]] + rest[0]] + rest[1..]
  }

  function Join(lines: seq<Text>): Text {
    if lines == [] then [] else if |lines| == 1 then lines[0] else lines[0] + [NEWLINE] + Join(lines[1..])
  }

  // ---- Fences and headings ----

  datatype Reading = Reading(place: Place, fence: Text)

  /** What one line does to the open fence and the current heading: a line inside a
      fence is never a heading. */
  function ReadLine(m: Patterns, r: Reading, number: nat, line: Text): Reading {
    var title := if r.fence == [] then m.heading(line) else None;
    var place := if title.Some? then Place(number, title) else r.place;
    var mark := m.mark(line);
    var fence :=
      if mark.None? || mark.value == [] then r.fence
      else if r.fence == [] then mark.value
      else if mark.value[0] == r.fence[0] && |mark.value| >= |r.fence| && m.closing(line) then []
      else r.fence;
    Reading(place, fence)
  }

  /** Fence and heading after the first `n` lines. */
  function ReadLines(m: Patterns, lines: seq<Text>, n: nat): Reading
    requires n <= |lines|
  {
    if n == 0 then Reading(Place(0, None), []) else ReadLine(m, ReadLines(m, lines, n - 1), n, lines[n - 1])
  }

  // ---- What the passages promise ----

  /** What goes between two passages: a new line, unless they share one. */
  function Glue(a: Passage, b: Passage): Text { if b.start > a.end then [NEWLINE] else [] }

  function Rebuild(out: seq<Passage>): Text {
    if out == [] then []
    else if |out| == 1 then out[0].body
    else Rebuild(out[..|out| - 1]) + Glue(out[|out| - 2], out[|out| - 1]) + out[|out| - 1].body
  }

  predicate High(u: Unit) { 0xD800 <= u <= 0xDBFF }

  predicate Low(u: Unit) { 0xDC00 <= u <= 0xDFFF }

  /** The boundary between two pieces of one line does not part a surrogate pair. */
  predicate KeepsPairs(a: Text, b: Text) {
    a != [] && b != [] ==> !(High(a[|a| - 1]) && Low(b[0]))
  }

  ghost predicate Ordered(out: seq<Passage>) {
    forall k | 0 <= k < |out| - 1 :: out[k].end <= out[k + 1].start <= out[k].end + 1
  }

  ghost predicate PairsKept(out: seq<Passage>) {
    forall k | 0 <= k < |out| - 1 && out[k + 1].start == out[k].end :: KeepsPairs(out[k].body, out[k + 1].body)
  }

  /** Every line of a passage stands under the passage's heading. */
  ghost predicate Placed(m: Patterns, lines: seq<Text>, p: Passage) {
    1 <= p.start <= p.end <= |lines| && forall j | p.start <= j <= p.end :: ReadLines(m, lines, j).place == p.place
  }

  ghost predicate Fine(m: Patterns, lines: seq<Text>, out: seq<Passage>) {
    Ordered(out) && PairsKept(out) && forall p | p in out :: |p.body| <= BODY && Placed(m, lines, p)
  }

  // ---- Proofs about joining ----

  lemma {:induction false} JoinSplit(s: Text)
    ensures Join(Split(s)) == s
    decreases |s|
  {
    if s != [] {
      JoinSplit(s[1..]);
      var rest := Split(s[1..]);
      if s[0] == NEWLINE {
        assert ([[]] + rest)[1..] == rest;
      } else {
        assert ([[s[0]] + rest[0]] + rest[1..])[1..] == rest[1..];
      }
      assert s == [s[0]] + s[1..];
    }
  }

  lemma {:induction false} JoinEnd(lines: seq<Text>, l: Text)
    requires lines != []
    ensures Join(lines + [l]) == Join(lines) + [NEWLINE] + l
    decreases |lines|
  {
    assert (lines + [l])[1..] == lines[1..] + [l];
    if |lines| > 1 { JoinEnd(lines[1..], l); }
  }

  /** The text shown so far: the finished passages and the buffer. */
  function Shown(out: seq<Passage>, buffer: seq<Text>, start: nat): Text {
    if buffer == [] then Rebuild(out)
    else if out == [] then Join(buffer)
    else Rebuild(out) + (if start > out[|out| - 1].end then [NEWLINE] else []) + Join(buffer)
  }

  lemma FlushShows(out: seq<Passage>, buffer: seq<Text>, p: Passage)
    requires buffer != [] && p.body == Join(buffer)
    ensures Shown(out, buffer, p.start) == Rebuild(out + [p])
  {
    assert (out + [p])[..|out|] == out;
  }

  lemma FlushFine(m: Patterns, lines: seq<Text>, out: seq<Passage>, p: Passage)
    requires Fine(m, lines, out) && |p.body| <= BODY && Placed(m, lines, p)
    requires out != [] ==> out[|out| - 1].end <= p.start <= out[|out| - 1].end + 1
    requires out != [] && p.start == out[|out| - 1].end ==> KeepsPairs(out[|out| - 1].body, p.body)
    ensures Fine(m, lines, out + [p])
  {
    hide Placed, KeepsPairs;
  }

  lemma ReadSame(m: Patterns, lines: seq<Text>, i: nat)
    requires i < |lines|
    ensures ReadLines(m, lines, i + 1) == ReadLine(m, ReadLines(m, lines, i), i + 1, lines[i])
  {
  }
}
