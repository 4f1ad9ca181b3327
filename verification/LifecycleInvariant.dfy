/** What every reachable state of the lifecycle satisfies. */
module LifecycleInvariant {
  import opened Options
  import opened Tables
  import opened Backup
  import opened Lifecycle

  predicate BackingUp(stage: Stage) { stage == Snapshots || stage == Files || stage == WriteManifest }

  predicate RestoringStage(stage: Stage) { stage == RestoreVerify || stage == RestoreWrite || stage == RestoreCheck }

  predicate BackupJob(w: World) { w.o.job.Some? && BackingUp(w.o.job.value.stage) }

  predicate RestoreJob(w: World) { w.o.job.Some? && w.o.job.value.action == Restore }

  predicate StepOf(pc: Pc, id: nat) { !pc.Idle? && pc.job.id == id }

  /** The object of a manifest that a job is to read next. */
  predicate Lists(m: Manifest, index: nat, e: ObjectEntry) { index < |m.objects| && m.objects[index] == e }

  /** A job exists exactly when the state is neither active nor deleted, and the
      stage, the action and the state agree. */
  ghost predicate Shape(o: Object) {
    && (o.job.Some? <==> o.record.state != Active && o.record.state != Deleted)
    && (o.job.Some? ==>
          var j := o.job.value;
          && (j.action == Restore <==> o.record.state == Restoring)
          && (BackingUp(j.stage) ==> j.action == Archive || j.action == ArchiveDelete)
          && (j.stage == Erase ==> j.action == Delete || j.action == ArchiveDelete)
          && (RestoringStage(j.stage) <==> j.action == Restore)
          && -1 <= j.cursor)
  }

  /** Ids are never reused, and objects are only recorded for the stored job. */
  ghost predicate Ids(w: World, h: History) {
    && (w.o.job.Some? ==> w.o.job.value.id < w.nextId)
    && (!w.pc.Idle? ==> w.pc.job.id < w.nextId)
    && (forall id | id in h.snaps :: id < w.nextId)
    && (forall id | id in w.o.objects :: w.o.job.Some? && w.o.job.value.id == id)
  }

  /** Every receipt names a complete verified backup of what its job froze. */
  ghost predicate ArchivesHold(kind: Kind, archives: map<nat, Receipt>, store: Store, snaps: map<nat, Snapshot>) {
    && (forall id | id in snaps :: WellKept(kind, snaps[id].content, snaps[id].files))
    && (forall id | id in archives ::
          && archives[id].archive == id
          && id in snaps
          && ArchiveHolds(store, archives[id], snaps[id]))
  }

  // ---- Progress of a backup ----

  /** Every table before `table` is listed in full, `table` up to the cursor, and
      none after it. */
  ghost predicate TablesDone(c: Content, all: seq<TableName>, done: seq<ObjectEntry>, table: nat, cursor: int) {
    && table <= |all|
    && (forall i | 0 <= i < table :: RowsOf(done, all[i]) == Listing(KeptTable(c, all[i]), -1))
    && (forall i | table < i < |all| :: RowsOf(done, all[i]) == [])
    && (forall t | t !in all :: RowsOf(done, t) == [])
    && (table < |all| ==>
          RowsOf(done, all[table]) + Listing(KeptTable(c, all[table]), cursor) == Listing(KeptTable(c, all[table]), -1))
  }

  ghost predicate NoFiles(done: seq<ObjectEntry>) {
    forall i | 0 <= i < |done| :: done[i].detail.TableDetail?
  }

  ghost predicate AllTablesDone(c: Content, done: seq<ObjectEntry>) {
    forall t :: RowsOf(done, t) == Listing(Rows(Kept(c), t), -1)
  }

  /** The files of exactly the finished attachments up to the cursor, with their bytes. */
  ghost predicate FilesDone(c: Content, bucket: map<string, Bytes>, done: seq<ObjectEntry>, cursor: int) {
    var ready := ReadyOnly(Rows(c, Attachments));
    && (forall k | k in ready && k <= cursor :: ready[k].key in FilesOf(done))
    && (forall key | key in FilesOf(done) ::
          && key in bucket && FilesOf(done)[key] == bucket[key]
          && exists k :: k in ready && ready[k].key == key)
  }

  /** The object the stored job is to record next, and the cursor after it. */
  ghost predicate Due(c: Content, all: seq<TableName>, bucket: map<string, Bytes>, j: Job, blob: Blob, detail: Detail, cursor: int) {
    match j.stage
    case Snapshots =>
      && j.table < |all|
      && var rows := SnapshotRows(c, all[j.table], j.cursor);
         rows != [] && blob == RowsBlob(rows) && detail == TableDetail(all[j.table], |rows|) && cursor == Cursor(rows, j.cursor)
    case Files =>
      var ready := ReadyOnly(Rows(c, Attachments));
      && 0 <= cursor && IsLeast(ready, j.cursor, cursor)
      && var key := ready[cursor].key;
         detail == FileDetail(key) && key in bucket && blob == FileBlob(bucket[key])
    case _ => false
  }

  /** Something is still to be recorded at the cursor. */
  ghost predicate MoreDue(c: Content, all: seq<TableName>, j: Job) {
    match j.stage
    case Snapshots => j.table < |all| && SnapshotRows(c, all[j.table], j.cursor) != []
    case Files => Above(ReadyOnly(Rows(c, Attachments)), j.cursor) != {}
    case _ => false
  }

  /** The existing tables in the order the job walks them. */
  function AllTables(kind: Kind, c: Content): seq<TableName> {
    Existing(TableNames(kind), c)
  }

  ghost predicate Progress(kind: Kind, c: Content, bucket: map<string, Bytes>, j: Job, done: seq<ObjectEntry>) {
    match j.stage
    case Snapshots => NoFiles(done) && TablesDone(c, AllTables(kind, c), done, j.table, j.cursor)
    case Files => AllTablesDone(c, done) && FilesDone(c, bucket, done, j.cursor)
    case WriteManifest => AllTablesDone(c, done) && FilesOf(done) == ReadyFiles(c, bucket)
    case _ => true
  }

  /** Live content is what it was when the job began. */
  ghost predicate Frozen(kind: Kind, c: Content, bucket: map<string, Bytes>, h: History, j: Job) {
    && c == h.frozen && bucket == h.frozenFiles
    && WellKept(kind, c, bucket)
    && j.id in h.snaps && h.snaps[j.id] == SnapshotOf(c, bucket)
  }

  /** The recorded objects are stored and cover the content up to the job's cursor.
      A crash may leave one object recorded that the job has not counted yet. */
  ghost predicate Covered(kind: Kind, c: Content, bucket: map<string, Bytes>, store: Store, objs: seq<ObjectEntry>, j: Job) {
    && AllStored(store, j.id, objs)
    && (|objs| == j.index || (|objs| == j.index + 1 && MoreDue(c, AllTables(kind, c), j)))
    && TablesFirst(objs[..j.index])
    && Progress(kind, c, bucket, j, objs[..j.index])
  }

  // ---- Erasing and restoring ----

  /** An archive-then-delete job erases only behind its own verified receipt. */
  ghost predicate Erasing(archives: map<nat, Receipt>, h: History, j: Job) {
    j.action == ArchiveDelete ==>
      && j.id in archives
      && j.receipt == Some(archives[j.id])
      && j.id in h.snaps
      && h.snaps[j.id] == SnapshotOf(h.frozen, h.frozenFiles)
  }

  ghost predicate HasReceipt(archives: map<nat, Receipt>, j: Job) {
    j.receipt.Some? && j.receipt.value.archive in archives && archives[j.receipt.value.archive] == j.receipt.value
  }

  ghost predicate TablesNamed(kind: Kind, c: Content) {
    forall t | t in c :: t in TableNames(kind)
  }

  /** A restore has written exactly the objects it has counted; the put of the
      next file may have landed already. */
  ghost predicate Rebuilt(c: Content, bucket: map<string, Bytes>, objects: seq<ObjectEntry>, j: Job) {
    && j.index <= |objects|
    && match j.stage
       case RestoreVerify => Empty(c) && bucket == map[]
       case RestoreWrite =>
         && Written(c, objects[..j.index])
         && (bucket == FilesOf(objects[..j.index])
             || (j.index < |objects| && bucket == FilesOf(objects[..j.index + 1])))
       case _ => Written(c, objects) && bucket == FilesOf(objects)
  }

  ghost predicate RestoreOk(kind: Kind, c: Content, bucket: map<string, Bytes>, store: Store, archives: map<nat, Receipt>, j: Job) {
    && HasReceipt(archives, j) && TablesNamed(kind, c)
    && ManifestFor(store, j).Some?
    && Rebuilt(c, bucket, ManifestFor(store, j).value.objects, j)
  }

  ghost predicate JobHolding(kind: Kind, c: Content, bucket: map<string, Bytes>, store: Store,
    objects: map<nat, seq<ObjectEntry>>, archives: map<nat, Receipt>, h: History, j: Job)
  {
    if BackingUp(j.stage) then
      && Frozen(kind, c, bucket, h, j)
      && Covered(kind, c, bucket, store, if j.id in objects then objects[j.id] else [], j)
    else if j.stage == Erase then WellKept(kind, c, bucket) && Erasing(archives, h, j)
    else RestoreOk(kind, c, bucket, store, archives, j)
  }

  ghost predicate Holding(kind: Kind, state: ResourceState, job: Option<Job>, c: Content, bucket: map<string, Bytes>,
    store: Store, objects: map<nat, seq<ObjectEntry>>, archives: map<nat, Receipt>, h: History)
  {
    && (state == Active ==> WellKept(kind, c, bucket))
    && (state == Deleted ==> Empty(c) && bucket == map[] && TablesNamed(kind, c))
    && (job.Some? ==> JobHolding(kind, c, bucket, store, objects, archives, h, job.value))
  }

  // ---- The running step ----

  /** A file of a manifest object. */
  ghost predicate IsFile(m: Manifest, i: nat, key: string, bytes: Bytes) {
    i < |m.objects| && m.objects[i].detail == FileDetail(key) && m.objects[i].hash == Sha256(FileBlob(bytes))
  }

  /** What a step of the stored job knows while it waits. */
  ghost predicate StepOk(pc: Pc, kind: Kind, c: Content, bucket: map<string, Bytes>, store: Store,
    objs: seq<ObjectEntry>, j: Job)
  {
    var m := ManifestFor(store, j);
    match pc
    case Idle => true
    case PutObject(job, blob, detail, cursor) => job == j && Due(c, AllTables(kind, c), bucket, j, blob, detail, cursor)
    case Recorded(job, cursor, _) =>
      && job == Counted(j) && |objs| == j.index + 1
      && Due(c, AllTables(kind, c), bucket, j, objs[j.index].hash.preimage, objs[j.index].detail, cursor)
    case GetFile(job, rowid, key, size) =>
      && job == j && j.stage == Files
      && IsLeast(ReadyOnly(Rows(c, Attachments)), j.cursor, rowid)
      && key == ReadyOnly(Rows(c, Attachments))[rowid].key
    case PutManifest(job, m) =>
      job == j && j.stage == WriteManifest && m == Manifest(j.id, j.source, AllTables(kind, c), objs)
    case EraseFile(job, files) =>
      job == j && j.stage == Erase && files != [] && Ascending(files, -1) && FromTable(Rows(c, Attachments), files)
    case FileErased(job, files) =>
      && job == j && j.stage == Erase && files != [] && Ascending(files, -1) && FromTable(Rows(c, Attachments), files)
      && (files[0].row.AttachmentRow? ==> files[0].row.key !in bucket)
    case NeedManifest(job) => job == j && RestoringStage(j.stage)
    case NeedObject(job, n) => job == j && RestoringStage(j.stage) && m == Some(n) && j.index < |n.objects|
    case NeedFile(job, n) => job == j && j.stage == RestoreCheck && m == Some(n) && j.index < |n.objects|
    case PutFile(job, key, bytes) => job == j && j.stage == RestoreWrite && m.Some? && IsFile(m.value, j.index, key, bytes)
    case FilePut(job) =>
      && job == j && j.stage == RestoreWrite && m.Some?
      && j.index < |m.value.objects| && m.value.objects[j.index].detail.FileDetail?
      && bucket == FilesOf(m.value.objects[..j.index + 1])
  }

  ghost predicate NamesFile(c: Content, key: string) {
    exists k :: k in Rows(c, Attachments) && Rows(c, Attachments)[k].AttachmentRow? && Rows(c, Attachments)[k].key == key
  }

  /** An abandoned step may only still have a file put in flight, and then a
      rollback waits for it that will delete that file. */
  ghost predicate Abandoned(pc: Pc, job: Option<Job>, c: Content) {
    && !pc.EraseFile? && !pc.FileErased?
    && (pc.PutFile? ==> job.Some? && job.value.stage == Erase && NamesFile(c, pc.key))
  }

  ghost predicate Running(pc: Pc, kind: Kind, job: Option<Job>, c: Content, bucket: map<string, Bytes>, store: Store,
    objects: map<nat, seq<ObjectEntry>>)
  {
    !pc.Idle? ==>
      if job.Some? && job.value.id == pc.job.id
      then StepOk(pc, kind, c, bucket, store, if pc.job.id in objects then objects[pc.job.id] else [], job.value)
      else Abandoned(pc, job, c)
  }

  ghost predicate Inv(w: World, h: History) {
    && Shape(w.o) && Ids(w, h)
    && ArchivesHold(w.o.record.kind, w.o.archives, w.store, h.snaps)
    && Holding(w.o.record.kind, w.o.record.state, w.o.job, w.o.content, w.bucket, w.store, w.o.objects, w.o.archives, h)
    && Running(w.pc, w.o.record.kind, w.o.job, w.o.content, w.bucket, w.store, w.o.objects)
  }
}
