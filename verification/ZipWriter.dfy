/** The loops that compute the size of an archive and stream it out. */
module ZipWriter {
  import opened Crc
  import opened Zip
  import opened ZipProofs

  method ComputeSize(entries: seq<Entry>, fold: Bytes -> Bytes) returns (r: Sized)
    ensures r == ZipSize(entries, fold)
  {
    hide NameOk;
    if |entries| > MAX_ENTRIES { return TooManyFiles; }
    var names: set<Bytes>, nameBytes: nat, total: nat, i: nat := {}, 0, 22, 0;
    while i < |entries|
      invariant 0 <= i <= |entries|
      invariant SizeFrom(entries[i..], fold, names, nameBytes, total) == ZipSize(entries, fold)
    {
      var e := entries[i];
      assert entries[i..][0] == e && entries[i..][1..] == entries[i + 1..];
      if e.size < 0 || !NameOk(e.name) || fold(e.name) in names { return BadEntry; }
      names := names + {fold(e.name)};
      nameBytes := nameBytes + |e.name|;
      if |e.name| > 65535 || nameBytes > MAX_NAMES { return NamesTooLong; }
      total := total + 30 + |e.name| + e.size + 16 + 46 + |e.name|;
      if total > MAX_BYTES { return TooLarge; }
      i := i + 1;
    }
    return Size(total);
  }

  /** A zeroed buffer with the given fields set in place. */
  method MakeHeader(length: nat, fields: seq<Field>) returns (bytes: array<Byte>)
    requires FieldsFit(length, fields)
    ensures fresh(bytes) && bytes[..] == Header(length, fields)
  {
    bytes := new Byte[length](_ => 0);
    assert bytes[..] == Zeros(length);
    var i := 0;
    while i < |fields|
      invariant 0 <= i <= |fields|
      invariant FieldsFit(length, fields[i..]) && PutAll(bytes[..], fields[i..]) == Header(length, fields)
    {
      var f := fields[i];
      assert f in fields && fields[i..][0] == f && fields[i..][1..] == fields[i + 1..];
      SetUint16(bytes, f.at, f.value);
      if f.size == 4 { SetUint16(bytes, f.at + 2, f.value / 65536); }
      i := i + 1;
    }
  }

  /** A little-endian 16-bit field set in place. */
  method SetUint16(bytes: array<Byte>, at: nat, value: nat)
    requires at + 2 <= bytes.Length
    modifies bytes
    ensures bytes[..] == Put2(old(bytes[..]), at, value)
  {
    bytes[at] := value % 256;
    bytes[at + 1] := value / 256 % 256;
  }

  lemma {:induction false} JoinEnd(chunks: seq<Bytes>, c: Bytes)
    ensures Join(chunks + [c]) == Join(chunks) + c
    decreases |chunks|
  {
    if chunks == [] {
      assert chunks + [c] == [c];
    } else {
      assert (chunks + [c])[1..] == chunks[1..] + [c];
      JoinEnd(chunks[1..], c);
    }
  }

  lemma {:induction false} JoinGrows(chunks: seq<Bytes>, j: nat)
    requires j <= |chunks|
    ensures |Join(chunks[..j])| <= |Join(chunks)|
    decreases |chunks| - j
  {
    if j < |chunks| {
      assert chunks[..j + 1] == chunks[..j] + [chunks[j]];
      JoinEnd(chunks[..j], chunks[j]);
      JoinGrows(chunks, j + 1);
    } else {
      assert chunks[..j] == chunks;
    }
  }

  lemma {:induction false} OneMore(entries: seq<Entry>, e: Entry, start: nat)
    ensures Locals(entries + [e]) == Locals(entries) + Local(e)
    ensures Directory(entries + [e], start) == Directory(entries, start) + Central(e, start + |Locals(entries)|)
    decreases |entries|
  {
    hide Local, Central;
    if entries == [] {
      assert entries + [e] == [e];
    } else {
      assert (entries + [e])[1..] == entries[1..] + [e];
      OneMore(entries[1..], e, start + |Local(entries[0])|);
    }
  }

  /** The bytes of one file, read chunk by chunk: passed on, counted and summed up,
      unless there are more or fewer than announced. */
  method CopyData(table: array<bv32>, e: Entry, out: Bytes) returns (ok: bool, out': Bytes, size: nat, crc: bv32)
    requires table.Length == 256 && forall n | 0 <= n < 256 :: table[n] == Steps(Word(n), 8)
    ensures ok <==> |Data(e)| == e.size
    ensures ok ==> out' == out + Data(e) && size == |Data(e)| && crc as int == CrcOf(Data(e))
  {
    hide Crc32, Steps, Word;
    size, crc, out' := 0, 0, out;
    Streaming([], [], 0);
    var j := 0;
    while j < |e.chunks|
      invariant 0 <= j <= |e.chunks| && size == |Join(e.chunks[..j])| && size <= (if j == 0 then 0 else e.size)
      invariant out' == out + Join(e.chunks[..j]) && crc == Crc32(Join(e.chunks[..j]), 0)
    {
      var chunk := e.chunks[j];
      assert e.chunks[..j + 1] == e.chunks[..j] + [chunk];
      JoinEnd(e.chunks[..j], chunk);
      size := size + |chunk|;
      if size > e.size {
        JoinGrows(e.chunks, j + 1);
        return false, out', size, crc;
      }
      Streaming(Join(e.chunks[..j]), chunk, 0);
      crc := Compute(table, chunk, crc);
      out' := out' + chunk;
      j := j + 1;
    }
    assert e.chunks[..j] == e.chunks;
    return size == e.size, out', size, crc;
  }

  /** One file: its local entry goes out, its directory record is kept for later. */
  method WriteEntry(table: array<bv32>, e: Entry, before: Bytes, records: seq<Bytes>) returns (ok: bool, out: Bytes, central: seq<Bytes>)
    requires table.Length == 256 && forall n | 0 <= n < 256 :: table[n] == Steps(Word(n), 8)
    ensures ok <==> |Data(e)| == e.size
    ensures ok ==> out == before + Local(e) && Join(central) == Join(records) + Central(e, |before|)
  {
    hide Data, Crc32, Header, PutAll, Steps, Word, FieldsFit, CrcOf, LocalFields, CentralFields, DescriptorFields;
    out, central := before, records;
    var start := |out|;
    var local := MakeHeader(30, LocalFields(|e.name|));
    out := out + local[..] + e.name;
    var size, crc;
    ok, out, size, crc := CopyData(table, e, out);
    if !ok { return; }
    var descriptor := MakeHeader(16, DescriptorFields(crc as int, size));
    out := out + descriptor[..];
    var record := MakeHeader(46, CentralFields(crc as int, size, |e.name|, start));
    JoinEnd(central, record[..]);
    JoinEnd(central + [record[..]], e.name);
    central := central + [record[..]] + [e.name];
  }

  /** The writer: it finishes exactly when the size check passes and every file is
      as long as announced, and then has written the archive and nothing else. */
  method Chunks(entries: seq<Entry>, fold: Bytes -> Bytes) returns (ok: bool, out: Bytes)
    ensures ok <==> ZipSize(entries, fold).Size? && Exact(entries)
    ensures ok ==> out == Archive(entries)
  {
    hide Local, Central, Data, Header, ZipSize, Steps, Word, FieldsFit, EndFields;
    out := [];
    var expected := ComputeSize(entries, fold);
    if !expected.Size? { return false, out; }
    var table := MakeTable();
    var central: seq<Bytes> := [];
    var i := 0;
    while i < |entries|
      invariant 0 <= i <= |entries| && Exact(entries[..i])
      invariant forall n | 0 <= n < 256 :: table[n] == Steps(Word(n), 8)
      invariant out == Locals(entries[..i]) && Join(central) == Directory(entries[..i], 0)
    {
      assert entries[..i + 1] == entries[..i] + [entries[i]];
      OneMore(entries[..i], entries[i], 0);
      ok, out, central := WriteEntry(table, entries[i], out, central);
      if !ok { return; }
      i := i + 1;
    }
    assert entries[..i] == entries;
    var directory := |out|;
    out := EmitAll(out, central);
    var end := MakeHeader(22, EndFields(|entries|, |out| - directory, directory));
    out := out + end[..];
    ZipSizeMeans(entries, fold);
    ArchiveLength(entries);
    assert |out| == expected.n;
    return true, out;
  }

  method EmitAll(before: Bytes, chunks: seq<Bytes>) returns (out: Bytes)
    ensures out == before + Join(chunks)
  {
    out := before;
    var i := 0;
    while i < |chunks|
      invariant 0 <= i <= |chunks| && out == before + Join(chunks[..i])
    {
      assert chunks[..i + 1] == chunks[..i] + [chunks[i]];
      JoinEnd(chunks[..i], chunks[i]);
      out := out + chunks[i];
      i := i + 1;
    }
    assert chunks[..i] == chunks;
  }
}
