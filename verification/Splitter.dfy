/** The loops of `sections`, and that they lose nothing. */
module Splitter {
  import opened Options
  import opened Texts
  import opened Sections

  /** The buffer is the next passage in the making. */
  ghost predicate BufferOk(m: Patterns, lines: seq<Text>, out: seq<Passage>, buffer: seq<Text>, size: nat, place: Place, start: nat, end: nat) {
    && (buffer == [] ==> size == 0)
    && (buffer != [] ==>
          (size == |Join(buffer)| + 1 && size <= BODY + 1
           && Placed(m, lines, Passage(place, start, end, Join(buffer)))
           && (out != [] ==> out[|out| - 1].end <= start <= out[|out| - 1].end + 1)
           && (out != [] && start == out[|out| - 1].end ==> KeepsPairs(out[|out| - 1].body, Join(buffer)))))
  }

  method Flush(m: Patterns, ghost lines: seq<Text>, out: seq<Passage>, buffer: seq<Text>, ghost size: nat, place: Place, start: nat, end: nat)
    returns (out': seq<Passage>)
    requires Fine(m, lines, out) && BufferOk(m, lines, out, buffer, size, place, start, end)
    ensures Fine(m, lines, out') && Rebuild(out') == Shown(out, buffer, start)
    ensures out' == if buffer == [] then out else out + [Passage(place, start, end, Join(buffer))]
  {
    out' := out;
    if buffer != [] {
      var p := Passage(place, start, end, Join(buffer));
      FlushShows(out, buffer, p);
      FlushFine(m, lines, out, p);
      out' := out + [p];
    }
  }

  /** Where the next part of a line ends: 3000 units on, or one less to keep a
      surrogate pair together. */
  method NextCut(line: Text, offset: nat) returns (next: nat)
    requires offset <= |line|
    ensures offset <= next <= |line| && next - offset <= PART && (offset < |line| ==> offset < next)
    ensures KeepsPairs(line[offset..next], line[next..])
    ensures 0 < next < |line| ==> !(High(line[next - 1]) && Low(line[next]))
  {
    next := if offset + PART < |line| then offset + PART else |line|;
    if next < |line| && High(line[next - 1]) { next := next - 1; }
  }

  lemma PushJoins(buffer: seq<Text>, part: Text)
    ensures Join(buffer + [part]) == if buffer == [] then part else Join(buffer) + [NEWLINE] + part
  {
    if buffer == [] { assert buffer + [part] == [part]; } else { JoinEnd(buffer, part); }
  }

  /** The passages of some Markdown: joined again they are the Markdown; none is
      longer than 4000 units; no boundary parts a surrogate pair; and every line of a
      passage stands under its heading. */
  method SplitSections(m: Patterns, markdown: Text) returns (out: seq<Passage>)
    ensures out != [] && Rebuild(out) == markdown
    ensures Fine(m, Split(markdown), out)
  {
    hide Placed, KeepsPairs, Fine, BufferOk, Shown, Join, Rebuild;
    var lines := Split(markdown);
    JoinSplit(markdown);
    out := [];
    var place, fence: Text := Place(0, None), [];
    var start, end, buffer: seq<Text>, size: nat := 1, 1, [], 0;
    var i := 0;
    NothingFine(m, lines, place);
    while i < |lines|
      invariant 0 <= i <= |lines|
      invariant Fine(m, lines, out) && BufferOk(m, lines, out, buffer, size, place, start, end)
      invariant Reading(place, fence) == ReadLines(m, lines, i)
      invariant if i == 0 then out == [] && buffer == [] else buffer != [] && end == i
      invariant Shown(out, buffer, start) == Join(lines[..i])
    {
      var line := lines[i];
      var mark, title := m.mark(line), if fence == [] then m.heading(line) else None;
      ReadSame(m, lines, i);
      if title.Some? {
        out := Flush(m, lines, out, buffer, size, place, start, end);
        buffer, size := [], 0;
        place := Place(i + 1, title);
        BufferEmptied(m, lines, out, place, start, end);
      }
      if mark.Some? && mark.value != [] {
        if fence == [] { fence := mark.value; }
        else if mark.value[0] == fence[0] && |mark.value| >= |fence| && m.closing(line) { fence := []; }
      }
      out, buffer, size, start := AddLine(m, lines, i, out, buffer, size, place, start, end);
      end := i + 1;
      LineAdded(lines, i);
      i := i + 1;
    }
    assert lines[..i] == lines;
    out := Flush(m, lines, out, buffer, size, place, start, end);
  }

  lemma NothingFine(m: Patterns, lines: seq<Text>, place: Place)
    ensures Fine(m, lines, []) && Shown([], [], 1) == [] == Join([])
    ensures BufferOk(m, lines, [], [], 0, place, 1, 1)
  {
  }

  lemma BufferEmptied(m: Patterns, lines: seq<Text>, out: seq<Passage>, place: Place, start: nat, end: nat)
    ensures BufferOk(m, lines, out, [], 0, place, start, end) && Shown(out, [], start) == Rebuild(out)
  {
  }

  lemma LineAdded(lines: seq<Text>, i: nat)
    requires i < |lines|
    ensures Join(lines[..i + 1]) == if i == 0 then lines[0] else Join(lines[..i]) + [NEWLINE] + lines[i]
  {
    assert lines[..i + 1] == lines[..i] + [lines[i]];
    PushJoins(lines[..i], lines[i]);
  }

  /** A part goes into the buffer, which then belongs to line `i + 1` too. */
  lemma PushOk(m: Patterns, lines: seq<Text>, i: nat, out: seq<Passage>, buffer: seq<Text>, size: nat, place: Place, start: nat, end: nat, part: Text)
    requires i < |lines| && ReadLines(m, lines, i + 1).place == place && |part| <= PART
    requires BufferOk(m, lines, out, buffer, size, place, start, end)
    requires buffer != [] ==> end == i && size + |part| <= BODY
    requires buffer == [] && out != [] ==>
      i <= out[|out| - 1].end <= i + 1 && (out[|out| - 1].end == i + 1 ==> KeepsPairs(out[|out| - 1].body, part))
    ensures BufferOk(m, lines, out, buffer + [part], size + |part| + 1, place, if buffer == [] then i + 1 else start, i + 1)
  {
    PushJoins(buffer, part);
    if buffer != [] && out != [] && start == out[|out| - 1].end {
      assert KeepsPairs(out[|out| - 1].body, Join(buffer));
    }
  }

  /** One part of a line, the first or a later one. */
  method AddPart(m: Patterns, lines: seq<Text>, i: nat, first: bool, part: Text,
      out0: seq<Passage>, buffer0: seq<Text>, size0: nat, place: Place, start0: nat, end0: nat)
    returns (out: seq<Passage>, buffer: seq<Text>, size: nat, start: nat)
    requires i < |lines| && ReadLines(m, lines, i + 1).place == place && |part| <= PART
    requires Fine(m, lines, out0) && BufferOk(m, lines, out0, buffer0, size0, place, start0, end0)
    requires if buffer0 != [] then end0 == (if first then i else i + 1) else first && (out0 != [] ==> out0[|out0| - 1].end == i)
    requires !first ==> KeepsPairs(Join(buffer0), part)
    ensures Fine(m, lines, out) && BufferOk(m, lines, out, buffer, size, place, start, i + 1) && buffer != []
    ensures Shown(out, buffer, start) ==
      (if out0 == [] && buffer0 == [] then [] else Shown(out0, buffer0, start0) + if first then [NEWLINE] else []) + part
    ensures part != [] ==> Join(buffer) != [] && Join(buffer)[|Join(buffer)| - 1] == part[|part| - 1]
  {
    hide Fine, KeepsPairs, BufferOk, Shown, Join, Rebuild;
    out, buffer, size, start := out0, buffer0, size0, start0;
    BufferStays(m, lines, out0, buffer0, size0, place, start0, end0);
    if (!first || size + |part| > BODY) && buffer != [] {
      out := Flush(m, lines, out, buffer, size, place, start, end0);
      buffer, size := [], 0;
    }
    BufferEmptied(m, lines, out, place, start, end0);
    PushOk(m, lines, i, out, buffer, size, place, start, end0, part);
    ShownPush(out, buffer, start, part, i);
    if buffer == [] { start := i + 1; }
    buffer, size := buffer + [part], size + |part| + 1;
  }

  lemma BufferStays(m: Patterns, lines: seq<Text>, out: seq<Passage>, buffer: seq<Text>, size: nat, place: Place, start: nat, end: nat)
    requires BufferOk(m, lines, out, buffer, size, place, start, end)
    ensures buffer == [] ==> size == 0
  {
  }

  lemma ShownPush(out: seq<Passage>, buffer: seq<Text>, start: nat, part: Text, i: nat)
    ensures Shown(out, buffer + [part], if buffer == [] then i + 1 else start) ==
      if buffer != [] then Shown(out, buffer, start) + [NEWLINE] + part
      else if out == [] then part
      else Rebuild(out) + (if i + 1 > out[|out| - 1].end then [NEWLINE] else []) + part
    ensures part != [] ==> Join(buffer + [part]) != [] && Join(buffer + [part])[|Join(buffer + [part])| - 1] == part[|part| - 1]
  {
    hide Rebuild, Join;
    PushJoins(buffer, part);
    if buffer != [] && out != [] {
      Regroup(Rebuild(out), if start > out[|out| - 1].end then [NEWLINE] else [], Join(buffer), part);
    }
  }

  lemma Regroup(a: Text, glue: Text, b: Text, part: Text)
    ensures a + glue + (b + [NEWLINE] + part) == a + glue + b + [NEWLINE] + part
  {
  }

  lemma PartKeeps(a: Text, line: Text, offset: nat, next: nat)
    requires offset < next <= |line| && KeepsPairs(a, line[offset..])
    ensures KeepsPairs(a, line[offset..next])
  {
  }

  /** One line, part by part. */
  method AddLine(m: Patterns, lines: seq<Text>, i: nat, out0: seq<Passage>, buffer0: seq<Text>, size0: nat, place: Place, start0: nat, end0: nat)
    returns (out: seq<Passage>, buffer: seq<Text>, size: nat, start: nat)
    requires i < |lines| && ReadLines(m, lines, i + 1).place == place
    requires Fine(m, lines, out0) && BufferOk(m, lines, out0, buffer0, size0, place, start0, end0)
    requires (i == 0) == (out0 == [] && buffer0 == [])
    requires if buffer0 != [] then end0 == i else out0 != [] ==> out0[|out0| - 1].end == i
    ensures Fine(m, lines, out) && BufferOk(m, lines, out, buffer, size, place, start, i + 1) && buffer != []
    ensures Shown(out, buffer, start) == (if i == 0 then [] else Shown(out0, buffer0, start0) + [NEWLINE]) + lines[i]
  {
    hide Fine, BufferOk, Shown, Join, Rebuild;
    out, buffer, size, start := out0, buffer0, size0, start0;
    var line, end: nat, offset: nat := lines[i], end0, 0;
    ghost var base := if i == 0 then [] else Shown(out0, buffer0, start0) + [NEWLINE];
    while true
      invariant 0 <= offset <= |line| && Fine(m, lines, out) && BufferOk(m, lines, out, buffer, size, place, start, end)
      invariant if offset == 0 then out == out0 && buffer == buffer0 && start == start0 && end == end0
                else offset < |line| && buffer != [] && end == i + 1 && KeepsPairs(Join(buffer), line[offset..])
      invariant offset > 0 ==> Shown(out, buffer, start) == base + line[..offset]
      decreases |line| - offset
    {
      var next := NextCut(line, offset);
      var part := line[offset..next];
      assert line[..next] == line[..offset] + part;
      if offset > 0 { PartKeeps(Join(buffer), line, offset, next); }
      out, buffer, size, start := AddPart(m, lines, i, offset == 0, part, out, buffer, size, place, start, end);
      end, offset := i + 1, next;
      if offset >= |line| { break; }
    }
    assert line[..offset] == line;
  }
}
