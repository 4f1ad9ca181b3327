/** What a backup is made of: the content tables of a resource, the row chunks
    the snapshot stage reads, the objects and manifest the archive store holds,
    and what a manifest's objects say about the content they were taken from. */
module Backup {
  import opened Options
  import opened Tables

  type Bytes = seq<bv8>

  datatype Kind = Chat | Wiki

  datatype TableName = Channel | Events | LinkedSpaces | Meta | Pages | Revisions
    | Comments | Changes | Attachments | Chunks | SearchIndex

  /** The columns the lifecycle looks at; `rest` stands for all others. */
  datatype Row =
    | MetaRow(attachmentBytes: nat, rest: string)
    | AttachmentRow(key: string, size: nat, ready: bool, rest: string)
    | TextRow(textBytes: nat, rest: string)
    | PlainRow(rest: string)

  /** The tables that exist; `linked_spaces` is created on first use. */
  type Content = map<TableName, Table<Row>>

  function TableNames(kind: Kind): seq<TableName> {
    match kind
    case Chat => [Channel, Events, LinkedSpaces]
    case Wiki => [Meta, Pages, Revisions, Comments, Changes, Attachments, LinkedSpaces, Chunks, SearchIndex]
  }

  function Existing(names: seq<TableName>, c: Content): (r: seq<TableName>)
    ensures forall t :: t in r <==> t in names && t in c
  {
    if names == [] then [] else (if names[0] in c then [names[0]] else []) + Existing(names[1..], c)
  }

  function Rows(c: Content, t: TableName): Table<Row> {
    if t in c then c[t] else map[]
  }

  // ---- Policy, receipts and the record (management-core) ----

  datatype Policy = Policy(idleSeconds: Option<nat>, ageSeconds: Option<nat>, archiveOnTtl: bool, paused: bool)

  datatype ResourceState = Active | Archiving | Expiring | Deleting | Deleted | Restoring

  datatype Reason = Ttl | Admin | CapabilityDelete | RestoreCanceled

  datatype Record = Record(kind: Kind, createdAt: int, lastActivityAt: int, policy: Policy, policyVersion: nat,
    version: nat, state: ResourceState, updatedAt: int, latestArchive: Option<Receipt>, reason: Option<Reason>,
    attempts: nat, deletedAt: Option<int>)

  // ---- Archive objects ----

  /** A stored object. JSON encoding is injective, so the decoded value stands
      for its bytes. */
  datatype Blob =
    | RowsBlob(rows: seq<Listed<Row>>)
    | FileBlob(bytes: Bytes)
    | ManifestBlob(manifest: Manifest)

  /** SHA-256, taken to be injective: a hash determines its preimage. */
  datatype Hash = Sha256(preimage: Blob)

  datatype StoreKey = ObjectKey(archive: nat, index: nat) | ManifestKey(archive: nat)

  datatype Detail = TableDetail(table: TableName, count: nat) | FileDetail(file: string)

  datatype ObjectEntry = ObjectEntry(key: StoreKey, hash: Hash, detail: Detail)

  datatype Manifest = Manifest(archive: nat, resource: Record, tables: seq<TableName>, objects: seq<ObjectEntry>)

  datatype Receipt = Receipt(archive: nat, key: StoreKey, hash: Hash, objects: nat)

  type Store = map<StoreKey, Blob>

  /** `readVerified`: the stored bytes, if present and of the recorded hash. */
  function ReadVerified(store: Store, key: StoreKey, hash: Hash): Option<Blob> {
    if key in store && Sha256(store[key]) == hash then Some(store[key]) else None
  }

  // ---- What a backup keeps of the content ----

  function ReadyOnly(m: Table<Row>): Table<Row> {
    map k | k in m && m[k].AttachmentRow? && m[k].ready :: m[k]
  }

  function SumSizes(rows: seq<Listed<Row>>): nat {
    if rows == [] then 0
    else (if rows[0].row.AttachmentRow? then rows[0].row.size else 0) + SumSizes(rows[1..])
  }

  function ReadyBytes(c: Content): nat {
    SumSizes(Listing(ReadyOnly(Rows(c, Attachments)), -1))
  }

  function WithBytes(row: Row, bytes: nat): Row {
    if row.MetaRow? then row.(attachmentBytes := bytes) else row
  }

  /** The backed-up form of a table: unfinished attachments are dropped, and the
      byte account of the wiki covers the finished ones only. */
  function KeptTable(c: Content, t: TableName): Table<Row> {
    if t == Attachments then ReadyOnly(Rows(c, t))
    else if t == Meta then map k | k in Rows(c, t) :: WithBytes(Rows(c, t)[k], ReadyBytes(c))
    else Rows(c, t)
  }

  function Kept(c: Content): Content {
    map t | t in c :: KeptTable(c, t)
  }

  /** The schema constraint `CHECK(singleton=1)` of the wiki table. */
  ghost predicate SingleMeta(c: Content) {
    forall k | k in Rows(c, Meta) :: k == 1
  }

  // ---- Snapshot chunks ----

  const CHUNK_ROWS := 128
  const CHUNK_BYTES := 2 * 1024 * 1024

  function RowSize(row: Row): nat {
    (if row.TextRow? then row.textBytes else 0) + 4096
  }

  function Sizes(rows: seq<Listed<Row>>): (s: seq<nat>)
    ensures |s| == |rows|
  {
    if rows == [] then [] else [RowSize(rows[0].row)] + Sizes(rows[1..])
  }

  function Sum(sizes: seq<nat>): nat {
    if sizes == [] then 0 else Sum(sizes[..|sizes| - 1]) + sizes[|sizes| - 1]
  }

  /** A count of leading rows is a proper chunk length when it takes at least one
      row if there is one, stays within the byte limit beyond that first row, and
      could not have taken one row more. */
  ghost predicate ChunkLength(sizes: seq<nat>, count: nat) {
    && count <= |sizes|
    && (sizes != [] ==> 1 <= count)
    && (1 < count ==> Sum(sizes[..count]) <= CHUNK_BYTES)
    && (0 < count < |sizes| ==> Sum(sizes[..count + 1]) > CHUNK_BYTES)
  }

  function CountFrom(sizes: seq<nat>, count: nat): nat
    requires count <= |sizes|
    decreases |sizes| - count
  {
    if count == |sizes| || (0 < count && Sum(sizes[..count]) + sizes[count] > CHUNK_BYTES) then count
    else CountFrom(sizes, count + 1)
  }

  lemma {:induction false} CountIsChunkLength(sizes: seq<nat>, count: nat)
    requires count <= |sizes|
    requires 1 < count ==> Sum(sizes[..count]) <= CHUNK_BYTES
    ensures ChunkLength(sizes, CountFrom(sizes, count))
    decreases |sizes| - count
  {
    if count < |sizes| {
      assert sizes[..count + 1][..count] == sizes[..count];
      if !(0 < count && Sum(sizes[..count]) + sizes[count] > CHUNK_BYTES) {
        CountIsChunkLength(sizes, count + 1);
      }
    }
  }

  /** The greedy packing loop of `snapshotRows`. */
  method ChunkCount(sizes: seq<nat>) returns (count: nat)
    ensures ChunkLength(sizes, count)
    ensures count == CountFrom(sizes, 0)
  {
    var bytes := 0;
    count := 0;
    while count < |sizes|
      invariant count <= |sizes|
      invariant bytes == Sum(sizes[..count])
      invariant 1 < count ==> Sum(sizes[..count]) <= CHUNK_BYTES
      invariant CountFrom(sizes, 0) == CountFrom(sizes, count)
    {
      if 0 < count && bytes + sizes[count] > CHUNK_BYTES { break; }
      assert sizes[..count + 1][..count] == sizes[..count];
      bytes := bytes + sizes[count];
      count := count + 1;
    }
    CountIsChunkLength(sizes, count);
  }

  /** `snapshotRows`: the next chunk of a table after the cursor. */
  function SnapshotRows(c: Content, t: TableName, after: int): seq<Listed<Row>> {
    var m := Rows(c, t);
    var count := if t == Pages || t == Revisions then CountFrom(Sizes(Select(m, after, CHUNK_ROWS)), 0) else CHUNK_ROWS;
    var rows := Select(if t == Attachments then ReadyOnly(m) else m, after, count);
    if t == Meta && rows != []
    then rows[0 := Listed(rows[0].rowid, WithBytes(rows[0].row, ReadyBytes(c)))]
    else rows
  }

  lemma MetaChunk(c: Content, after: int)
    requires SingleMeta(c)
    ensures SnapshotRows(c, Meta, after) == Select(KeptTable(c, Meta), after, CHUNK_ROWS)
  {
    hide Rows;
    var m, kept := Rows(c, Meta), KeptTable(c, Meta);
    assert m.Keys == kept.Keys;
    assert Above(m, after) == Above(kept, after);
    if Above(m, after) != {} {
      assert Least(m, after) == 1 == Least(kept, after);
      assert Above(m, 1) == {} == Above(kept, 1);
      assert Select(m, after, CHUNK_ROWS) == [Listed(1, m[1])];
      assert Select(kept, after, CHUNK_ROWS) == [Listed(1, kept[1])];
    }
  }

  /** Each chunk is the next stretch of the table as the backup keeps it: chunk
      after chunk, nothing is left out and nothing comes twice. An empty chunk
      means there is nothing left. */
  lemma ChunkAdvances(c: Content, t: TableName, after: int)
    requires SingleMeta(c)
    ensures var rows := SnapshotRows(c, t, after);
            && Listing(KeptTable(c, t), after) == rows + Listing(KeptTable(c, t), Cursor(rows, after))
            && (rows != [] ==> after < Cursor(rows, after))
            && (rows == [] ==> Listing(KeptTable(c, t), after) == [])
            && (rows == [] <==> Above(KeptTable(c, t), after) == {})
  {
    hide ChunkLength, CountFrom;
    var m := Rows(c, t);
    if t == Meta {
      MetaChunk(c, after);
      SelectSplits(KeptTable(c, t), after, CHUNK_ROWS);
    } else {
      var sizes := Sizes(Select(m, after, CHUNK_ROWS));
      CountIsChunkLength(sizes, 0);
      var count := if t == Pages || t == Revisions then CountFrom(sizes, 0) else CHUNK_ROWS;
      SelectSplits(KeptTable(c, t), after, count);
    }
  }

  // ---- What the objects of a manifest say ----

  function EntryRows(e: ObjectEntry, t: TableName): seq<Listed<Row>> {
    if e.detail.TableDetail? && e.detail.table == t && e.hash.preimage.RowsBlob? then e.hash.preimage.rows else []
  }

  /** The rows of one table, chunk after chunk. */
  function RowsOf(objects: seq<ObjectEntry>, t: TableName): seq<Listed<Row>> {
    if objects == [] then [] else RowsOf(objects[..|objects| - 1], t) + EntryRows(objects[|objects| - 1], t)
  }

  function EntryFile(e: ObjectEntry): map<string, Bytes> {
    if e.detail.FileDetail? && e.hash.preimage.FileBlob? then map[e.detail.file := e.hash.preimage.bytes] else map[]
  }

  function FilesOf(objects: seq<ObjectEntry>): map<string, Bytes> {
    if objects == [] then map[] else FilesOf(objects[..|objects| - 1]) + EntryFile(objects[|objects| - 1])
  }

  lemma Append(objects: seq<ObjectEntry>, e: ObjectEntry)
    ensures forall t :: RowsOf(objects + [e], t) == RowsOf(objects, t) + EntryRows(e, t)
    ensures FilesOf(objects + [e]) == FilesOf(objects) + EntryFile(e)
  {
    assert (objects + [e])[..|objects|] == objects;
  }

  lemma AppendNext(objects: seq<ObjectEntry>, k: nat)
    requires k < |objects|
    ensures objects[..k + 1] == objects[..k] + [objects[k]]
    ensures forall t :: RowsOf(objects[..k + 1], t) == RowsOf(objects[..k], t) + EntryRows(objects[k], t)
    ensures FilesOf(objects[..k + 1]) == FilesOf(objects[..k]) + EntryFile(objects[k])
  {
    hide *;
    assert objects[..k + 1] == objects[..k] + [objects[k]];
    Append(objects[..k], objects[k]);
  }

  ghost predicate Typed(e: ObjectEntry) {
    match e.detail
    case TableDetail(_, count) => e.hash.preimage.RowsBlob? && |e.hash.preimage.rows| == count
    case FileDetail(_) => e.hash.preimage.FileBlob?
  }

  /** The object is in the store under its own key with the recorded hash. */
  ghost predicate EntryStored(store: Store, archive: nat, i: nat, e: ObjectEntry) {
    e.key == ObjectKey(archive, i) && ReadVerified(store, e.key, e.hash).Some? && Typed(e)
  }

  ghost predicate AllStored(store: Store, archive: nat, objects: seq<ObjectEntry>) {
    forall i | 0 <= i < |objects| :: EntryStored(store, archive, i, objects[i])
  }

  ghost predicate TablesFirst(objects: seq<ObjectEntry>) {
    forall i, j | 0 <= i < j < |objects| :: objects[i].detail.FileDetail? ==> objects[j].detail.FileDetail?
  }

  /** A resource's content at one instant, as a backup keeps it. */
  datatype Snapshot = Snapshot(content: Content, files: map<string, Bytes>)

  /** The objects list every kept row of every table exactly once in ascending
      order, and hold every kept file. */
  ghost predicate Describes(objects: seq<ObjectEntry>, snap: Snapshot) {
    && (forall t :: RowsOf(objects, t) == Listing(Rows(snap.content, t), -1))
    && FilesOf(objects) == snap.files
  }

  /** A complete verified backup of `snap`: the manifest named by the receipt and
      every object it lists are in the store with the recorded hashes, and
      together they hold exactly the snapshot. */
  ghost predicate ArchiveHolds(store: Store, r: Receipt, snap: Snapshot) {
    && r.key == ManifestKey(r.archive)
    && ReadVerified(store, r.key, r.hash).Some?
    && store[r.key].ManifestBlob?
    && var m := store[r.key].manifest;
       && m.archive == r.archive
       && r.objects == |m.objects|
       && AllStored(store, m.archive, m.objects)
       && TablesFirst(m.objects)
       && Describes(m.objects, snap)
       && (forall t :: t in m.tables <==> t in snap.content)
  }

  /** Nothing already stored is ever changed. */
  ghost predicate Grows(store: Store, store': Store) {
    forall k | k in store :: k in store' && store'[k] == store[k]
  }

  lemma ArchiveKept(store: Store, store': Store, r: Receipt, snap: Snapshot)
    requires Grows(store, store') && ArchiveHolds(store, r, snap)
    ensures ArchiveHolds(store', r, snap)
  {
    var m := store[r.key].manifest;
    forall i | 0 <= i < |m.objects| ensures EntryStored(store', m.archive, i, m.objects[i]) {
      assert EntryStored(store, m.archive, i, m.objects[i]);
    }
  }

  // ---- Restoring ----

  /** One manifest object written into the content tables. */
  function WriteEntry(c: Content, e: ObjectEntry): Content {
    if e.detail.TableDetail? && e.detail.table in c
    then c[e.detail.table := InsertAll(c[e.detail.table], EntryRows(e, e.detail.table))]
    else c
  }

  /** After the first objects have been written into empty tables, each table
      holds exactly the rows those objects list. */
  ghost predicate Written(c: Content, objects: seq<ObjectEntry>) {
    forall t :: Rows(c, t) == InsertAll(map[], RowsOf(objects, t))
  }

  ghost predicate Empty(c: Content) {
    forall t :: Rows(c, t) == map[]
  }

  lemma WriteNext(c: Content, objects: seq<ObjectEntry>, k: nat)
    requires k < |objects| && Written(c, objects[..k])
    requires objects[k].detail.TableDetail? ==> objects[k].detail.table in c
    ensures Written(WriteEntry(c, objects[k]), objects[..k + 1])
  {
    var e := objects[k];
    AppendNext(objects, k);
    forall t ensures Rows(WriteEntry(c, e), t) == InsertAll(map[], RowsOf(objects[..k + 1], t)) {
      InsertAppends(map[], RowsOf(objects[..k], t), EntryRows(e, t));
    }
  }

  /** Writing all objects of a complete backup gives the snapshot's rows back. */
  lemma WrittenIsSnapshot(c: Content, objects: seq<ObjectEntry>, snap: Snapshot)
    requires Describes(objects, snap) && Written(c, objects)
    ensures forall t :: Rows(c, t) == Rows(snap.content, t)
  {
    forall t ensures Rows(c, t) == Rows(snap.content, t) {
      ListingRestores(Rows(snap.content, t));
    }
  }
}
