/** What is written reads back, no field wraps, and its length is the one announced. */
module ZipProofs {
  import opened Options
  import opened Zip

  /** Every reader yields as many bytes as announced. */
  ghost predicate Exact(entries: seq<Entry>) {
    forall e | e in entries :: |Data(e)| == e.size
  }

  function Total(entries: seq<Entry>): int {
    if entries == [] then 0 else 92 + 2 * |entries[0].name| + entries[0].size + Total(entries[1..])
  }

  function NameBytes(entries: seq<Entry>): nat {
    if entries == [] then 0 else |entries[0].name| + NameBytes(entries[1..])
  }

  ghost predicate FoldApart(entries: seq<Entry>, fold: Bytes -> Bytes) {
    forall i, j | 0 <= i < j < |entries| :: fold(entries[i].name) != fold(entries[j].name)
  }

  ghost predicate Acceptable(entries: seq<Entry>, fold: Bytes -> Bytes, names: set<Bytes>) {
    && (forall e | e in entries :: e.size >= 0 && NameOk(e.name) && |e.name| <= 65535 && fold(e.name) !in names)
    && FoldApart(entries, fold)
  }

  lemma {:induction false} TotalPositive(entries: seq<Entry>)
    requires forall e | e in entries :: e.size >= 0
    ensures Total(entries) >= 0
    decreases |entries|
  {
    if entries != [] { TotalPositive(entries[1..]); }
  }

  lemma {:induction false} SizeFromMeans(entries: seq<Entry>, fold: Bytes -> Bytes, names: set<Bytes>, nameBytes: nat, total: nat)
    requires nameBytes <= MAX_NAMES && total <= MAX_BYTES
    ensures SizeFrom(entries, fold, names, nameBytes, total).Size? <==>
      (Acceptable(entries, fold, names) && nameBytes + NameBytes(entries) <= MAX_NAMES && total + Total(entries) <= MAX_BYTES)
    ensures SizeFrom(entries, fold, names, nameBytes, total).Size? ==>
      SizeFrom(entries, fold, names, nameBytes, total).n == total + Total(entries)
    decreases |entries|
  {
    hide NameOk;
    if entries != [] {
      var e := entries[0];
      var names' := names + {fold(e.name)};
      AcceptableStep(entries, fold, names);
      if Acceptable(entries, fold, names) { TotalPositive(entries[1..]); }
      if e.size >= 0 && |e.name| <= 65535 && nameBytes + |e.name| <= MAX_NAMES && total + 92 + 2 * |e.name| + e.size <= MAX_BYTES {
        SizeFromMeans(entries[1..], fold, names', nameBytes + |e.name|, total + 92 + 2 * |e.name| + e.size);
      }
    }
  }

  ghost predicate EntryOk(e: Entry, fold: Bytes -> Bytes, names: set<Bytes>) {
    e.size >= 0 && NameOk(e.name) && |e.name| <= 65535 && fold(e.name) !in names
  }

  lemma AcceptableStep(entries: seq<Entry>, fold: Bytes -> Bytes, names: set<Bytes>)
    requires entries != []
    ensures Acceptable(entries, fold, names) <==>
      EntryOk(entries[0], fold, names) && Acceptable(entries[1..], fold, names + {fold(entries[0].name)})
  {
    hide *;
    if Acceptable(entries, fold, names) { AcceptableTail(entries, fold, names); }
    if EntryOk(entries[0], fold, names) && Acceptable(entries[1..], fold, names + {fold(entries[0].name)}) {
      AcceptableCons(entries, fold, names);
    }
  }

  lemma AcceptableTail(entries: seq<Entry>, fold: Bytes -> Bytes, names: set<Bytes>)
    requires entries != [] && Acceptable(entries, fold, names)
    ensures EntryOk(entries[0], fold, names) && Acceptable(entries[1..], fold, names + {fold(entries[0].name)})
  {
    hide NameOk;
    var rest := entries[1..];
    assert entries[0] in entries;
    forall x | x in rest ensures EntryOk(x, fold, names + {fold(entries[0].name)}) {
      assert x in entries;
      var j :| 0 <= j < |rest| && rest[j] == x;
      assert fold(entries[0].name) != fold(entries[j + 1].name);
    }
    forall i, j | 0 <= i < j < |rest| ensures fold(rest[i].name) != fold(rest[j].name) {
      assert fold(entries[i + 1].name) != fold(entries[j + 1].name);
    }
  }

  lemma AcceptableCons(entries: seq<Entry>, fold: Bytes -> Bytes, names: set<Bytes>)
    requires entries != []
    requires EntryOk(entries[0], fold, names) && Acceptable(entries[1..], fold, names + {fold(entries[0].name)})
    ensures Acceptable(entries, fold, names)
  {
    hide NameOk;
    var rest := entries[1..];
    forall x | x in entries ensures EntryOk(x, fold, names) {
      if x != entries[0] { assert x in rest; }
    }
    forall i, j | 0 <= i < j < |entries| ensures fold(entries[i].name) != fold(entries[j].name) {
      assert entries[j] == rest[j - 1] && rest[j - 1] in rest;
      if i > 0 { assert fold(rest[i - 1].name) != fold(rest[j - 1].name); }
    }
  }

  /** `zipSize` accepts exactly the sets of files within every limit, with usable
      and distinct names, and returns the bytes they take. */
  lemma ZipSizeMeans(entries: seq<Entry>, fold: Bytes -> Bytes)
    ensures ZipSize(entries, fold).Size? <==>
      (|entries| <= MAX_ENTRIES && Acceptable(entries, fold, {}) && NameBytes(entries) <= MAX_NAMES && 22 + Total(entries) <= MAX_BYTES)
    ensures ZipSize(entries, fold).Size? ==> ZipSize(entries, fold).n == 22 + Total(entries)
  {
    SizeFromMeans(entries, fold, {}, 0, 22);
  }

  // ---- Lengths ----

  lemma PartLengths(e: Entry, start: nat)
    ensures |Local(e)| == 46 + |e.name| + |Data(e)| && |Central(e, start)| == 46 + |e.name|
  {
    hide Header, Data;
  }

  lemma {:induction false} Lengths(entries: seq<Entry>, start: nat)
    requires Exact(entries)
    ensures |Locals(entries)| + |Directory(entries, start)| == Total(entries)
    decreases |entries|
  {
    hide Local, Central, Data;
    if entries != [] {
      assert entries[0] in entries;
      PartLengths(entries[0], start);
      Lengths(entries[1..], start + |Local(entries[0])|);
    }
  }

  lemma ArchiveLength(entries: seq<Entry>)
    requires Exact(entries)
    ensures |Archive(entries)| == 22 + Total(entries)
  {
    hide Header, Locals, Directory;
    Lengths(entries, 0);
  }

  // ---- Fields ----

  lemma Get2Put2(h: Bytes, at: nat, v: nat, from: nat)
    requires at + 2 <= |h| && from + 2 <= |h|
    ensures from == at ==> Get2(Put2(h, at, v), from) == v % 65536
    ensures from + 2 <= at || at + 2 <= from ==> Get2(Put2(h, at, v), from) == Get2(h, from)
  {
  }

  lemma Get4Put2(h: Bytes, at: nat, v: nat, from: nat)
    requires at + 2 <= |h| && from + 4 <= |h|
    ensures from + 4 <= at || at + 2 <= from ==> Get4(Put2(h, at, v), from) == Get4(h, from)
  {
    hide Put2, Get2;
    Get2Put2(h, at, v, from);
    Get2Put2(h, at, v, from + 2);
  }

  lemma Get2Put4(h: Bytes, at: nat, v: nat, from: nat)
    requires at + 4 <= |h| && from + 2 <= |h|
    ensures from + 2 <= at || at + 4 <= from ==> Get2(Put4(h, at, v), from) == Get2(h, from)
  {
    hide Put2, Get2;
    Get2Put2(h, at, v, from);
    Get2Put2(Put2(h, at, v), at + 2, v / 65536, from);
  }

  lemma Get4Put4(h: Bytes, at: nat, v: nat, from: nat)
    requires at + 4 <= |h| && from + 4 <= |h|
    ensures from == at && v < 0x1_0000_0000 ==> Get4(Put4(h, at, v), from) == v
    ensures from + 4 <= at || at + 4 <= from ==> Get4(Put4(h, at, v), from) == Get4(h, from)
  {
    hide Put2, Get2;
    var h1 := Put2(h, at, v);
    Get2Put2(h, at, v, at);
    Get2Put2(h1, at + 2, v / 65536, at);
    Get2Put2(h1, at + 2, v / 65536, at + 2);
    Get2Put4(h, at, v, from);
    Get2Put4(h, at, v, from + 2);
    assert v < 0x1_0000_0000 ==> v / 65536 < 65536 && v % 65536 + 65536 * (v / 65536) == v;
  }

  ghost predicate Apart(fields: seq<Field>, at: nat, size: nat) {
    forall f | f in fields :: f.at + f.size <= at || at + size <= f.at
  }

  /** Fields elsewhere do not touch a place in the header. */
  lemma {:induction false} PutAllApart(h: Bytes, fields: seq<Field>, at: nat)
    requires FieldsFit(|h|, fields)
    ensures at + 2 <= |h| && Apart(fields, at, 2) ==> Get2(PutAll(h, fields), at) == Get2(h, at)
    ensures at + 4 <= |h| && Apart(fields, at, 4) ==> Get4(PutAll(h, fields), at) == Get4(h, at)
    decreases |fields|
  {
    hide Put2, Put4, Get2, Get4;
    if fields != [] {
      var f := fields[0];
      assert f in fields;
      var h' := if f.size == 2 then Put2(h, f.at, f.value) else Put4(h, f.at, f.value);
      PutAllApart(h', fields[1..], at);
      if at + 2 <= |h| {
        if f.size == 2 { Get2Put2(h, f.at, f.value, at); } else { Get2Put4(h, f.at, f.value, at); }
      }
      if at + 4 <= |h| {
        if f.size == 2 { Get4Put2(h, f.at, f.value, at); } else { Get4Put4(h, f.at, f.value, at); }
      }
    }
  }

  /** Fields laid out one after another. */
  ghost predicate Ordered(fields: seq<Field>) {
    forall i, j | 0 <= i < j < |fields| :: fields[i].at + fields[i].size <= fields[j].at
  }

  /** A field whose value fits reads back from the finished header. */
  lemma {:induction false} FieldReads(h: Bytes, fields: seq<Field>, k: nat)
    requires FieldsFit(|h|, fields) && k < |fields| && Ordered(fields)
    ensures fields[k] in fields
    ensures fields[k].size == 2 && fields[k].value < 65536 ==> Get2(PutAll(h, fields), fields[k].at) == fields[k].value
    ensures fields[k].size == 4 && fields[k].value < 0x1_0000_0000 ==> Get4(PutAll(h, fields), fields[k].at) == fields[k].value
    decreases k
  {
    hide Put2, Put4, Get2, Get4;
    var f, rest := fields[0], fields[1..];
    assert f in fields;
    assert forall i | 0 <= i < |rest| :: rest[i] == fields[i + 1];
    var h' := if f.size == 2 then Put2(h, f.at, f.value) else Put4(h, f.at, f.value);
    if k == 0 {
      PutAllApart(h', rest, f.at);
      if f.size == 2 { Get2Put2(h, f.at, f.value, f.at); } else { Get4Put4(h, f.at, f.value, f.at); }
    } else {
      FieldReads(h', rest, k - 1);
    }
  }

  /** What no field covers is zero. */
  lemma BlankReads(length: nat, fields: seq<Field>, at: nat)
    requires FieldsFit(length, fields) && at + 2 <= length && Apart(fields, at, 2)
    ensures Get2(Header(length, fields), at) == 0
  {
    PutAllApart(Zeros(length), fields, at);
  }

  lemma LocalReads(n: nat)
    requires n < 65536
    ensures var h := Header(30, LocalFields(n));
      Get4(h, 0) == 0x04034b50 && Get2(h, 6) == 0x808 && Get2(h, 8) == 0 && Get2(h, 26) == n && Get2(h, 28) == 0
  {
    hide PutAll, Get2, Get4, FieldsFit;
    FieldReads(Zeros(30), LocalFields(n), 0);
    FieldReads(Zeros(30), LocalFields(n), 2);
    FieldReads(Zeros(30), LocalFields(n), 4);
    BlankReads(30, LocalFields(n), 8);
    BlankReads(30, LocalFields(n), 28);
  }

  lemma DescriptorReads(crc: nat, size: nat)
    requires crc < 0x1_0000_0000 && size < 0x1_0000_0000
    ensures var h := Header(16, DescriptorFields(crc, size));
      Get4(h, 0) == 0x08074b50 && Get4(h, 4) == crc && Get4(h, 8) == size && Get4(h, 12) == size
  {
    hide PutAll, Get2, Get4;
    FieldReads(Zeros(16), DescriptorFields(crc, size), 0);
    FieldReads(Zeros(16), DescriptorFields(crc, size), 1);
    FieldReads(Zeros(16), DescriptorFields(crc, size), 2);
    FieldReads(Zeros(16), DescriptorFields(crc, size), 3);
  }

  lemma CentralReads(crc: nat, size: nat, n: nat, start: nat)
    requires crc < 0x1_0000_0000 && size < 0x1_0000_0000 && n < 65536 && start < 0x1_0000_0000
    ensures FieldsFit(46, CentralFields(crc, size, n, start))
    ensures var h := Header(46, CentralFields(crc, size, n, start));
      Get4(h, 0) == 0x02014b50 && Get4(h, 16) == crc && Get4(h, 20) == size && Get4(h, 24) == size && Get2(h, 28) == n && Get4(h, 42) == start
        && Get2(h, 8) == 0x808 && Get2(h, 10) == 0 && Get2(h, 30) == 0 && Get2(h, 32) == 0
  {
    hide PutAll, Get2, Get4, FieldsFit, Ordered, Apart, Zeros;
    var fields := CentralFields(crc, size, n, start);
    CentralLaidOut(crc, size, n, start);
    FieldReads(Zeros(46), fields, 0);
    FieldReads(Zeros(46), fields, 3);
    FieldReads(Zeros(46), fields, 5);
    FieldReads(Zeros(46), fields, 6);
    FieldReads(Zeros(46), fields, 7);
    FieldReads(Zeros(46), fields, 8);
    FieldReads(Zeros(46), fields, 9);
    CentralApart(crc, size, n, start, 10);
    BlankReads(46, fields, 10);
    CentralApart(crc, size, n, start, 30);
    BlankReads(46, fields, 30);
    CentralApart(crc, size, n, start, 32);
    BlankReads(46, fields, 32);
  }

  lemma CentralLaidOut(crc: nat, size: nat, n: nat, start: nat)
    ensures var fields := CentralFields(crc, size, n, start); FieldsFit(46, fields) && Ordered(fields)
  {
    hide FieldsFit;
  }

  lemma CentralApart(crc: nat, size: nat, n: nat, start: nat, at: nat)
    requires at == 10 || at == 30 || at == 32
    ensures Apart(CentralFields(crc, size, n, start), at, 2)
  {
    hide FieldsFit;
  }

  lemma EndReads(count: nat, length: nat, directory: nat)
    requires count < 65536 && length < 0x1_0000_0000 && directory < 0x1_0000_0000
    ensures var h := Header(22, EndFields(count, length, directory));
      Get4(h, 0) == 0x06054b50 && Get2(h, 8) == count && Get2(h, 10) == count && Get4(h, 12) == length
        && Get4(h, 16) == directory && Get2(h, 20) == 0
  {
    hide PutAll;
    var fields := EndFields(count, length, directory);
    PutAllApart(Zeros(22), fields, 20);
    assert Get2(Zeros(22), 20) == 0;
    hide Get2, Get4;
    FieldReads(Zeros(22), fields, 0);
    FieldReads(Zeros(22), fields, 1);
    FieldReads(Zeros(22), fields, 2);
    FieldReads(Zeros(22), fields, 3);
    FieldReads(Zeros(22), fields, 4);
  }

  // ---- Reading back ----

  ghost predicate At(z: Bytes, at: nat, s: Bytes) {
    at + |s| <= |z| && z[at..at + |s|] == s
  }

  lemma AtSplits(z: Bytes, at: nat, a: Bytes, b: Bytes)
    requires At(z, at, a + b)
    ensures At(z, at, a) && At(z, at + |a|, b)
  {
    var s := z[at..at + |a + b|];
    assert s[..|a|] == a && s[|a|..] == b;
    assert z[at..at + |a|] == s[..|a|] && z[at + |a|..at + |a| + |b|] == s[|a|..];
  }

  lemma GetAt2(z: Bytes, at: nat, h: Bytes, k: nat)
    requires At(z, at, h) && k + 2 <= |h|
    ensures Get2(z, at + k) == Get2(h, k)
  {
    assert z[at..at + |h|][k] == z[at + k] && z[at..at + |h|][k + 1] == z[at + k + 1];
  }

  lemma GetAt4(z: Bytes, at: nat, h: Bytes, k: nat)
    requires At(z, at, h) && k + 4 <= |h|
    ensures Get4(z, at + k) == Get4(h, k)
  {
    GetAt2(z, at, h, k);
    GetAt2(z, at, h, k + 2);
  }

  lemma CrcFits(data: Bytes)
    ensures CrcOf(data) < 0x1_0000_0000
  {
  }

  ghost predicate Fits(e: Entry) { |e.name| < 65536 && |Data(e)| < 0x1_0000_0000 }

  lemma LocalReadsBack(z: Bytes, at: nat, e: Entry)
    requires At(z, at, Local(e)) && Fits(e)
    ensures ReadLocal(z, at, e.name, 0x808, CrcOf(Data(e)), |Data(e)|) == Some(Data(e))
  {
    hide Header, Get2, Get4, CrcOf, Data, DescriptorFields, LocalFields;
    var n, data := |e.name|, Data(e);
    var h, d := Header(30, LocalFields(n)), Header(16, DescriptorFields(CrcOf(data), |data|));
    AtSplits(z, at, h + e.name + data, d);
    AtSplits(z, at, h + e.name, data);
    AtSplits(z, at, h, e.name);
    LocalReads(n);
    CrcFits(data);
    DescriptorReads(CrcOf(data), |data|);
    GetAt4(z, at, h, 0);
    GetAt2(z, at, h, 6);
    GetAt2(z, at, h, 8);
    GetAt2(z, at, h, 26);
    GetAt2(z, at, h, 28);
    var end := at + 30 + n + |data|;
    GetAt4(z, end, d, 0);
    GetAt4(z, end, d, 4);
    GetAt4(z, end, d, 8);
    GetAt4(z, end, d, 12);
  }

  lemma CentralReadsBack(z: Bytes, at: nat, e: Entry, start: nat)
    requires At(z, at, Central(e, start)) && Fits(e) && start < 0x1_0000_0000
    ensures at + 46 + |e.name| <= |z| && z[at + 46..at + 46 + |e.name|] == e.name
    ensures Get4(z, at) == 0x02014b50 && Get4(z, at + 16) == CrcOf(Data(e)) && Get4(z, at + 20) == |Data(e)| == Get4(z, at + 24)
    ensures Get2(z, at + 28) == |e.name| && Get4(z, at + 42) == start
    ensures Get2(z, at + 8) == 0x808 && Get2(z, at + 10) == 0 && Get2(z, at + 30) == 0 && Get2(z, at + 32) == 0
  {
    hide Header, Get2, Get4, CrcOf, Data, CentralFields, FieldsFit;
    var h := Header(46, CentralFields(CrcOf(Data(e)), |Data(e)|, |e.name|, start));
    AtSplits(z, at, h, e.name);
    CrcFits(Data(e));
    CentralReads(CrcOf(Data(e)), |Data(e)|, |e.name|, start);
    GetAt4(z, at, h, 0);
    GetAt4(z, at, h, 16);
    GetAt4(z, at, h, 20);
    GetAt4(z, at, h, 24);
    GetAt2(z, at, h, 28);
    GetAt4(z, at, h, 42);
    GetAt2(z, at, h, 8);
    GetAt2(z, at, h, 10);
    GetAt2(z, at, h, 30);
    GetAt2(z, at, h, 32);
  }

  /** The rest of the directory leads to the rest of the files. */
  lemma {:induction false} DirectoryReadsBack(z: Bytes, at: nat, end: nat, entries: seq<Entry>, start: nat)
    requires end <= |z| && end == at + |Directory(entries, start)|
    requires At(z, at, Directory(entries, start)) && At(z, start, Locals(entries))
    requires start + |Locals(entries)| < 0x1_0000_0000 && forall e | e in entries :: Fits(e)
    ensures ReadDirectory(z, at, end, |entries|) == Some(Files(entries))
    decreases |entries|
  {
    hide Local, Central, Get2, Get4, CrcOf, Data, ReadLocal;
    if entries != [] {
      var e := entries[0];
      assert e in entries;
      PartLengths(e, start);
      AtSplits(z, at, Central(e, start), Directory(entries[1..], start + |Local(e)|));
      AtSplits(z, start, Local(e), Locals(entries[1..]));
      CentralReadsBack(z, at, e, start);
      LocalReadsBack(z, start, e);
      DirectoryReadsBack(z, at + |Central(e, start)|, end, entries[1..], start + |Local(e)|);
    }
  }

  lemma {:induction false} AllFit(entries: seq<Entry>, e: Entry)
    requires Exact(entries) && Total(entries) < 0x1_0000_0000 && e in entries
    requires forall x | x in entries :: |x.name| <= 65535
    ensures Fits(e)
    decreases |entries|
  {
    hide Data;
    assert entries[0] in entries;
    if e != entries[0] {
      AllFit(entries[1..], e);
    } else {
      forall x | x in entries[1..] ensures x.size >= 0 { assert x in entries; }
      TotalPositive(entries[1..]);
    }
  }

  /** The ZIP round trip: for every set of files the size check accepts, a reader
      recovers exactly the names and bytes written, so no field has wrapped, and
      the archive is as long as was announced. */
  lemma RoundTrip(entries: seq<Entry>, fold: Bytes -> Bytes)
    requires ZipSize(entries, fold).Size? && Exact(entries)
    ensures Read(Archive(entries)) == Some(Files(entries))
    ensures |Archive(entries)| == ZipSize(entries, fold).n
  {
    hide Get2, Get4, ReadDirectory, ZipSize, Acceptable, Archive, Locals, Directory, Total, NameBytes, At, Fits, Files;
    ZipSizeMeans(entries, fold);
    ArchiveLength(entries);
    var z, locals, directory := Archive(entries), Locals(entries), Directory(entries, 0);
    EndReadsBack(entries);
    NamesShort(entries, fold);
    forall e | e in entries ensures Fits(e) { AllFit(entries, e); }
    DirectoryReadsBack(z, |locals|, |z| - 22, entries, 0);
  }

  lemma NamesShort(entries: seq<Entry>, fold: Bytes -> Bytes)
    requires Acceptable(entries, fold, {})
    ensures forall x | x in entries :: |x.name| <= 65535
  {
    hide NameOk;
  }

  lemma EndReadsBack(entries: seq<Entry>)
    requires |entries| < 65536 && |Archive(entries)| < 0x1_0000_0000
    ensures var z, locals, directory := Archive(entries), Locals(entries), Directory(entries, 0);
      && |z| == |locals| + |directory| + 22
      && At(z, 0, locals) && At(z, |locals|, directory)
      && (var end := |z| - 22;
          Get4(z, end) == 0x06054b50 && Get2(z, end + 8) == |entries| == Get2(z, end + 10) && Get4(z, end + 12) == |directory|
          && Get4(z, end + 16) == |locals| && Get2(z, end + 20) == 0)
  {
    hide Get2, Get4, Header, Locals, Directory;
    var z, locals, directory := Archive(entries), Locals(entries), Directory(entries, 0);
    var h := Header(22, EndFields(|entries|, |directory|, |locals|));
    assert At(z, 0, locals + directory + h);
    AtSplits(z, 0, locals + directory, h);
    AtSplits(z, 0, locals, directory);
    EndReads(|entries|, |directory|, |locals|);
    var end := |z| - 22;
    GetAt4(z, end, h, 0);
    GetAt2(z, end, h, 8);
    GetAt2(z, end, h, 10);
    GetAt4(z, end, h, 12);
    GetAt4(z, end, h, 16);
    GetAt2(z, end, h, 20);
  }
}
