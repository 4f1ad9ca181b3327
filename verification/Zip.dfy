/** The streaming ZIP32 writer and its precomputed size, and a reader that goes
    from the end record through the central directory to the local entries
    (sections 4.3.16, 4.3.12, 4.3.7 and 4.3.9 of the PKWARE APPNOTE). */
module Zip {
  import opened Options
  import opened Crc

  type Bytes = seq<Byte>

  /** A file to export: its UTF-8 name, its announced size and what its reader yields. */
  datatype Entry = Entry(name: Bytes, size: int, chunks: seq<Bytes>)

  const MAX_ENTRIES := 50000
  const MAX_NAMES := 8388608
  const MAX_BYTES := 1073741824

  function Join(chunks: seq<Bytes>): Bytes {
    if chunks == [] then [] else chunks[0] + Join(chunks[1..])
  }

  function Data(e: Entry): Bytes { Join(e.chunks) }

  // ---- Size and names ----

  /** The segments of a name between slashes. */
  function Segments(name: Bytes): (r: seq<Bytes>)
    ensures r != []
  {
    if name == [] then [[]]
    else
      var rest := Segments(name[1..]);
      if name[0] == 47 then [[]] + rest else [[name[0]] + rest[0]] + rest[1..]
  }

  predicate NameOk(name: Bytes) {
    && name != [] && name[0] != 47
    && (forall b | b in name :: b >= 32 && b != 92)
    && (forall p | p in Segments(name) :: p != [] && p != [46] && p != [46, 46])
  }

  datatype Sized = Size(n: nat) | TooManyFiles | BadEntry | NamesTooLong | TooLarge

  /** The loop of `zipSize` from some entry on; `fold` lower-cases a name. */
  function SizeFrom(entries: seq<Entry>, fold: Bytes -> Bytes, names: set<Bytes>, nameBytes: nat, total: nat): Sized {
    if entries == [] then Size(total)
    else
      var e := entries[0];
      if e.size < 0 || !NameOk(e.name) || fold(e.name) in names then BadEntry
      else if |e.name| > 65535 || nameBytes + |e.name| > MAX_NAMES then NamesTooLong
      else
        var total' := total + 30 + |e.name| + e.size + 16 + 46 + |e.name|;
        if total' > MAX_BYTES then TooLarge
        else SizeFrom(entries[1..], fold, names + {fold(e.name)}, nameBytes + |e.name|, total')
  }

  function ZipSize(entries: seq<Entry>, fold: Bytes -> Bytes): Sized {
    if |entries| > MAX_ENTRIES then TooManyFiles else SizeFrom(entries, fold, {}, 0, 22)
  }

  // ---- Fields ----

  function Zeros(n: nat): (r: Bytes)
    ensures |r| == n && forall i | 0 <= i < n :: r[i] == 0
  {
    seq(n, _ => 0)
  }

  /** Little-endian fields; a value too wide for its field wraps. */
  function Put2(h: Bytes, at: nat, v: nat): (r: Bytes)
    requires at + 2 <= |h|
    ensures |r| == |h|
  {
    h[at := v % 256][at + 1 := v / 256 % 256]
  }

  function Put4(h: Bytes, at: nat, v: nat): (r: Bytes)
    requires at + 4 <= |h|
    ensures |r| == |h|
  {
    Put2(Put2(h, at, v), at + 2, v / 65536)
  }

  function Get2(z: Bytes, at: nat): (v: nat)
    requires at + 2 <= |z|
  {
    var low: int, high: int := z[at], z[at + 1];
    low + 256 * high
  }

  function Get4(z: Bytes, at: nat): (v: nat)
    requires at + 4 <= |z|
  {
    Get2(z, at) + 65536 * Get2(z, at + 2)
  }

  /** A field of a header: where it starts, how wide it is and its value. */
  datatype Field = Field(at: nat, size: nat, value: nat)

  predicate FieldsFit(length: nat, fields: seq<Field>) {
    forall f | f in fields :: (f.size == 2 || f.size == 4) && f.at + f.size <= length
  }

  function PutAll(h: Bytes, fields: seq<Field>): (r: Bytes)
    requires FieldsFit(|h|, fields)
    ensures |r| == |h|
    decreases |fields|
  {
    if fields == [] then h
    else
      assert fields[0] in fields;
      var f := fields[0];
      PutAll(if f.size == 2 then Put2(h, f.at, f.value) else Put4(h, f.at, f.value), fields[1..])
  }

  function LocalFields(nameLength: nat): (fields: seq<Field>)
    ensures FieldsFit(30, fields)
  {
    [Field(0, 4, 0x04034b50), Field(4, 2, 20), Field(6, 2, 0x808), Field(12, 2, 33), Field(26, 2, nameLength)]
  }

  function DescriptorFields(crc: nat, size: nat): (fields: seq<Field>)
    ensures FieldsFit(16, fields)
  {
    [Field(0, 4, 0x08074b50), Field(4, 4, crc), Field(8, 4, size), Field(12, 4, size)]
  }

  function CentralFields(crc: nat, size: nat, nameLength: nat, start: nat): (fields: seq<Field>)
    ensures FieldsFit(46, fields)
  {
    [Field(0, 4, 0x02014b50), Field(4, 2, 20), Field(6, 2, 20), Field(8, 2, 0x808), Field(14, 2, 33), Field(16, 4, crc),
     Field(20, 4, size), Field(24, 4, size), Field(28, 2, nameLength), Field(42, 4, start)]
  }

  function EndFields(count: nat, length: nat, directory: nat): (fields: seq<Field>)
    ensures FieldsFit(22, fields)
  {
    [Field(0, 4, 0x06054b50), Field(8, 2, count), Field(10, 2, count), Field(12, 4, length), Field(16, 4, directory)]
  }

  function Header(length: nat, fields: seq<Field>): (r: Bytes)
    requires FieldsFit(length, fields)
    ensures |r| == length
  {
    PutAll(Zeros(length), fields)
  }

  // ---- What is written ----

  function CrcOf(data: Bytes): nat { Crc32(data, 0) as int }

  function Local(e: Entry): Bytes {
    Header(30, LocalFields(|e.name|)) + e.name + Data(e) + Header(16, DescriptorFields(CrcOf(Data(e)), |Data(e)|))
  }

  function Central(e: Entry, start: nat): Bytes {
    Header(46, CentralFields(CrcOf(Data(e)), |Data(e)|, |e.name|, start)) + e.name
  }

  function Locals(entries: seq<Entry>): Bytes {
    if entries == [] then [] else Local(entries[0]) + Locals(entries[1..])
  }

  function Directory(entries: seq<Entry>, start: nat): Bytes {
    if entries == [] then []
    else Central(entries[0], start) + Directory(entries[1..], start + |Local(entries[0])|)
  }

  function Archive(entries: seq<Entry>): Bytes {
    var locals, directory := Locals(entries), Directory(entries, 0);
    locals + directory + Header(22, EndFields(|entries|, |directory|, |locals|))
  }

  // ---- The reader ----

  datatype File = File(name: Bytes, data: Bytes)

  /** General purpose bits 0 and 3 (section 4.4.4): the data is encrypted, and its
      CRC and sizes follow it in a descriptor. */
  predicate Encrypted(flags: nat) { flags % 2 == 1 }

  predicate Described(flags: nat) { flags / 8 % 2 == 1 }

  /** The stored data of the local entry at `at`, which has to agree with its
      directory record. */
  function ReadLocal(z: Bytes, at: nat, name: Bytes, flags: nat, crc: nat, size: nat): Option<Bytes> {
    if at + 30 > |z| then None
    else if Get4(z, at) != 0x04034b50 || Get2(z, at + 6) != flags || Get2(z, at + 8) != 0 then None
    else
      var nameEnd := at + 30 + Get2(z, at + 26);
      var data := nameEnd + Get2(z, at + 28);
      var d := data + size;
      if d + (if Described(flags) then 16 else 0) > |z| || z[at + 30..nameEnd] != name then None
      else if Described(flags)
              && (Get4(z, d) != 0x08074b50 || Get4(z, d + 4) != crc || Get4(z, d + 8) != size || Get4(z, d + 12) != size)
      then None
      else if !Described(flags) && (Get4(z, at + 14) != crc || Get4(z, at + 18) != size || Get4(z, at + 22) != size)
      then None
      else if CrcOf(z[data..d]) != crc then None
      else Some(z[data..d])
  }

  /** The files of `count` directory records from `at` on, which must end at `end`. */
  function ReadDirectory(z: Bytes, at: nat, end: nat, count: nat): Option<seq<File>>
    requires end <= |z|
    decreases count
  {
    if count == 0 then if at == end then Some([]) else None
    else if at + 46 > end then None
    else
      var name := at + 46 + Get2(z, at + 28);
      var next := name + Get2(z, at + 30) + Get2(z, at + 32);
      var flags := Get2(z, at + 8);
      if Get4(z, at) != 0x02014b50 || next > end then None
      else if Encrypted(flags) || Get2(z, at + 10) != 0 || Get4(z, at + 20) != Get4(z, at + 24) then None
      else
        var data := ReadLocal(z, Get4(z, at + 42), z[at + 46..name], flags, Get4(z, at + 16), Get4(z, at + 24));
        var rest := ReadDirectory(z, next, end, count - 1);
        if data.None? || rest.None? then None else Some([File(z[at + 46..name], data.value)] + rest.value)
  }

  function Read(z: Bytes): Option<seq<File>> {
    if |z| < 22 then None
    else
      var end := |z| - 22;
      if Get4(z, end) != 0x06054b50 || Get2(z, end + 20) != 0 || Get2(z, end + 8) != Get2(z, end + 10) then None
      else if Get4(z, end + 16) + Get4(z, end + 12) != end then None
      else ReadDirectory(z, Get4(z, end + 16), end, Get2(z, end + 10))
  }

  function Files(entries: seq<Entry>): seq<File> {
    if entries == [] then [] else [File(entries[0].name, Data(entries[0]))] + Files(entries[1..])
  }
}
