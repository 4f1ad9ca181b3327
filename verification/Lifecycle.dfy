/** The resource lifecycle: a durable job machine whose steps stop at every
    external call. Code between two awaits is one atomic transition. Between any
    two transitions an administrator can cancel, the process can crash, a call
    can fail, requests can arrive and time can pass. */
module Lifecycle {
  import opened Options
  import opened Tables
  import opened Backup

  datatype Action = Archive | ArchiveDelete | Delete | Restore

  datatype Stage = Snapshots | Files | WriteManifest | Erase | RestoreVerify | RestoreWrite | RestoreCheck

  datatype Job = Job(action: Action, id: nat, stage: Stage, table: nat, cursor: int, index: nat,
    source: Record, receipt: Option<Receipt>)

  /** The object's durable tables. `dirty`: 0 synced, 1 activity, 2 state or policy. */
  datatype Object = Object(record: Record, job: Option<Job>, dirty: nat, archives: map<nat, Receipt>,
    objects: map<nat, seq<ObjectEntry>>, content: Content)

  /** Where the one running step waits. The job is the step's own copy. */
  datatype Pc =
    | Idle
    | PutObject(job: Job, blob: Blob, detail: Detail, cursor: int)
    | Recorded(job: Job, cursor: int, check: Option<(string, Bytes)>)
    | GetFile(job: Job, rowid: nat, key: string, size: nat)
    | PutManifest(job: Job, manifest: Manifest)
    | EraseFile(job: Job, files: seq<Listed<Row>>)
    | FileErased(job: Job, files: seq<Listed<Row>>)
    | NeedManifest(job: Job)
    | NeedObject(job: Job, manifest: Manifest)
    | NeedFile(job: Job, manifest: Manifest)
    | PutFile(job: Job, key: string, bytes: Bytes)
    | FilePut(job: Job)

  /** The object, its running step, the live file bucket, the write-once archive
      store, the clock and the supply of fresh ids. */
  datatype World = World(o: Object, pc: Pc, bucket: map<string, Bytes>, store: Store, now: int, nextId: nat)

  // ---- Deadlines (management-core) ----

  function Min(a: int, b: int): int { if a < b then a else b }

  function ExpiresAt(r: Record): Option<int> {
    var idle := if r.policy.idleSeconds.Some? then Some(r.lastActivityAt + r.policy.idleSeconds.value * 1000) else None;
    var age := if r.policy.ageSeconds.Some? then Some(r.createdAt + r.policy.ageSeconds.value * 1000) else None;
    if r.policy.paused then None
    else if idle.None? then age
    else if age.None? then idle
    else Some(Min(idle.value, age.value))
  }

  predicate Overdue(r: Record, now: int) {
    r.state == Active && ExpiresAt(r).Some? && now >= ExpiresAt(r).value
  }

  predicate Available(r: Record, now: int) {
    r.state == Active && !Overdue(r, now)
  }

  function Max(a: nat, b: nat): nat { if a < b then b else a }

  function Save(o: Object, r: Record, dirty: nat, now: int): Object {
    o.(record := r.(version := r.version + 1, updatedAt := now), dirty := Max(o.dirty, dirty))
  }

  predicate Live(o: Object, job: Job) {
    o.job.Some? && o.job.value.id == job.id
  }

  /** The running step is one of the stored job. */
  predicate LiveStep(w: World) {
    !w.pc.Idle? && Live(w.o, w.pc.job)
  }

  /** There is a job, and no step of another one is running. */
  predicate Unabandoned(w: World) {
    w.o.job.Some? && (w.pc.Idle? || LiveStep(w))
  }

  predicate JobAt(w: World, stage: Stage) {
    w.o.job.Some? && w.o.job.value.stage == stage
  }

  function ObjectsOf(o: Object, id: nat): seq<ObjectEntry> {
    if id in o.objects then o.objects[id] else []
  }

  /** `INSERT OR REPLACE` at an index of the list kept for one archive. */
  function PutAt(entries: seq<ObjectEntry>, index: nat, e: ObjectEntry): seq<ObjectEntry> {
    if index < |entries| then entries[index := e] else entries + [e]
  }

  // ---- begin, cancel, finish ----

  function FirstStage(action: Action): Stage {
    match action
    case Restore => RestoreVerify
    case Delete => Erase
    case _ => Snapshots
  }

  function BusyState(action: Action, reason: Reason): ResourceState {
    if action == Restore then Restoring
    else if reason == Ttl then Expiring
    else if action == Delete then Deleting
    else Archiving
  }

  predicate CanBegin(o: Object, action: Action) {
    o.job.None? && (if action == Restore then o.record.state == Deleted else o.record.state == Active)
  }

  function NewJob(w: World, action: Action, receipt: Option<Receipt>): Job {
    Job(action, w.nextId, FirstStage(action), 0, -1, 0, w.o.record, receipt)
  }

  /** A refused `begin` answers 409 and changes nothing. */
  function Begin(w: World, action: Action, reason: Reason, receipt: Option<Receipt>): World {
    if !CanBegin(w.o, action) then w
    else
      var r := w.o.record;
      var job := NewJob(w, action, receipt);
      var r' := r.(state := BusyState(action, reason), reason := Some(reason), attempts := 0);
      w.(o := Save(w.o.(job := Some(job)), r', 2, w.now), nextId := w.nextId + 1)
  }

  function Tick(w: World): World {
    if Overdue(w.o.record, w.now)
    then Begin(w, if w.o.record.policy.archiveOnTtl then ArchiveDelete else Delete, Ttl, None)
    else w
  }

  function Cancel(w: World): World {
    if w.o.job.None? || w.o.job.value.stage == Erase then w
    else
      var job := w.o.job.value;
      var r := w.o.record.(attempts := 0);
      var o := w.o.(objects := w.o.objects - {job.id});
      if job.action != Restore then
        var r' := if r.reason == Some(Ttl)
                  then r.(policy := r.policy.(paused := true), policyVersion := r.policyVersion + 1) else r;
        w.(o := Save(o.(job := None), r'.(state := Active, reason := None), 2, w.now))
      else if job.stage == RestoreVerify then
        w.(o := Save(o.(job := None), r.(state := Deleted, reason := Some(RestoreCanceled)), 2, w.now))
      else
        var rollback := Job(Delete, w.nextId, Erase, 0, -1, 0, r, None);
        w.(o := Save(o.(job := Some(rollback)), r.(state := Deleting, reason := Some(RestoreCanceled)), 2, w.now),
           nextId := w.nextId + 1)
  }

  function Cleared(c: Content): Content {
    map t | t in c :: map[]
  }

  function Finished(record: Record, job: Job, state: ResourceState, now: int): Record {
    var r := record.(state := state);
    var r := if state == Deleted
             then r.(deletedAt := if job.source.deletedAt.Some? then job.source.deletedAt else Some(now)) else r;
    if job.action == Restore
    then r.(createdAt := job.source.createdAt, lastActivityAt := job.source.lastActivityAt,
            policy := job.source.policy.(paused := true), policyVersion := r.policyVersion + 1, deletedAt := None)
    else r
  }

  function Finish(w: World, job: Job, state: ResourceState, clear: bool): World {
    if !Live(w.o, job) then w.(pc := Idle)
    else
      var r := Finished(w.o.record, job, state, w.now);
      var o := if clear then w.o.(content := Cleared(w.o.content)) else w.o;
      w.(o := Save(o.(job := None, objects := o.objects - {job.id}), r, 2, w.now), pc := Idle)
  }

  // ---- One step, cut at its awaits ----

  /** `live(job); saveJob(job)`: the end of every step that goes on. */
  function Saved(w: World, job: Job): World {
    if Live(w.o, job) then w.(o := w.o.(job := Some(job)), pc := Idle) else w.(pc := Idle)
  }

  /** A step that throws: the failure is counted only if its job is still the stored one. */
  function Failed(w: World): World {
    if !w.pc.Idle? && Live(w.o, w.pc.job)
    then w.(o := Save(w.o, w.o.record.(attempts := w.o.record.attempts + 1), 2, w.now), pc := Idle)
    else w.(pc := Idle)
  }

  // How a job moves on

  function Counted(job: Job): Job { job.(index := job.index + 1) }

  function NextTable(job: Job): Job { job.(table := job.table + 1, cursor := -1) }

  function ToWrite(job: Job): Job { job.(stage := RestoreWrite, index := 0) }

  function ToCheck(job: Job): Job { job.(stage := RestoreCheck, index := 0) }

  const ERASE_BATCH := 20

  /** The part of a step before its first await. */
  function Start(w: World): World {
    if !w.pc.Idle? || w.o.job.None? then w
    else
      var job := w.o.job.value;
      var c := w.o.content;
      match job.stage
      case Snapshots =>
        var all := Existing(TableNames(w.o.record.kind), c);
        if |all| <= job.table then Saved(w, job.(stage := Files, cursor := -1))
        else
          var rows := SnapshotRows(c, all[job.table], job.cursor);
          if rows == [] then Saved(w, NextTable(job))
          else w.(pc := PutObject(job, RowsBlob(rows), TableDetail(all[job.table], |rows|), Cursor(rows, job.cursor)))
      case Files =>
        var next := if w.o.record.kind == Wiki then Select(ReadyOnly(Rows(c, Attachments)), job.cursor, 1) else [];
        if next == [] || !next[0].row.AttachmentRow? then Saved(w, job.(stage := WriteManifest))
        else w.(pc := GetFile(job, next[0].rowid, next[0].row.key, next[0].row.size))
      case WriteManifest =>
        w.(pc := PutManifest(job, Manifest(job.id, job.source, Existing(TableNames(w.o.record.kind), c), ObjectsOf(w.o, job.id))))
      case Erase =>
        var files := if w.o.record.kind == Wiki then Select(Rows(c, Attachments), -1, ERASE_BATCH) else [];
        if files == [] then Finish(w, job, Deleted, true)
        else w.(pc := EraseFile(job, files))
      case _ => w.(pc := NeedManifest(job))
  }

  /** The external effects on the live bucket, which come before the call answers. */
  function Land(w: World): World {
    match w.pc
    case EraseFile(job, files) =>
      if files == [] then w
      else w.(bucket := if files[0].row.AttachmentRow? then w.bucket - {files[0].row.key} else w.bucket,
              pc := FileErased(job, files))
    case PutFile(job, key, bytes) => w.(bucket := w.bucket[key := bytes], pc := FilePut(job))
    case _ => w
  }

  function ManifestFor(store: Store, job: Job): Option<Manifest> {
    if job.receipt.None? then None
    else
      var read := ReadVerified(store, job.receipt.value.key, job.receipt.value.hash);
      if read.Some? && read.value.ManifestBlob? then Some(read.value.manifest) else None
  }

  /** The archive store holds the manifest the running step waits for. */
  predicate ManifestStored(w: World) {
    w.pc.PutManifest? && ReadVerified(w.store, ManifestKey(w.pc.job.id), Sha256(ManifestBlob(w.pc.manifest))).Some?
  }

  /** `restore-verify` has read every object: clear, and make room for the links table. */
  function RoomFor(c: Content, tables: seq<TableName>): Content {
    if LinkedSpaces in tables && LinkedSpaces !in c then Cleared(c)[LinkedSpaces := map[]] else Cleared(c)
  }

  function HasManifest(w: World, job: Job, m: Manifest): World {
    var more := job.index < |m.objects|;
    match job.stage
    case RestoreVerify =>
      if more then w.(pc := NeedObject(job, m))
      else Saved(w.(o := w.o.(content := RoomFor(w.o.content, m.tables))), ToWrite(job))
    case RestoreWrite =>
      if more then w.(pc := NeedObject(job, m)) else Saved(w, ToCheck(job))
    case RestoreCheck =>
      if !more then Finish(w, job.(source := m.resource), Active, false)
      else if m.objects[job.index].detail.TableDetail? then w.(pc := NeedObject(job, m))
      else w.(pc := NeedFile(job, m))
    case _ => Failed(w)
  }

  /** The rows of a table between the first and last rowid of a chunk. */
  function Between(m: Table<Row>, rows: seq<Listed<Row>>): seq<Listed<Row>> {
    if rows == [] then [] else Listing(Part(m, rows[0].rowid, rows[|rows| - 1].rowid), -1)
  }

  function Part(m: Table<Row>, lo: nat, hi: nat): Table<Row> {
    map k | k in m && lo <= k <= hi :: m[k]
  }

  function HasObject(w: World, job: Job, e: ObjectEntry, blob: Blob): World {
    match job.stage
    case RestoreVerify => Saved(w, Counted(job))
    case RestoreWrite =>
      if !Live(w.o, job) then w.(pc := Idle)
      else if e.detail.TableDetail? then
        if !blob.RowsBlob? || |blob.rows| != e.detail.count || e.detail.table !in w.o.content then Failed(w)
        else Saved(w.(o := w.o.(content := WriteEntry(w.o.content, e))), Counted(job))
      else if blob.FileBlob? then w.(pc := PutFile(job, e.detail.file, blob.bytes))
      else Failed(w)
    case RestoreCheck =>
      if e.detail.TableDetail? && blob.RowsBlob? && Between(Rows(w.o.content, e.detail.table), blob.rows) == blob.rows
      then Saved(w, Counted(job))
      else Failed(w)
    case _ => Failed(w)
  }

  /** The live file a backup compares once more with what it has written of it. */
  function FileToCheck(detail: Detail, blob: Blob): Option<(string, Bytes)> {
    if detail.FileDetail? && blob.FileBlob? then Some((detail.file, blob.bytes)) else None
  }

  /** The part of a step after an external call answered. A call whose answer does
      not verify throws. */
  function Resume(w: World): World {
    match w.pc
    case PutObject(job, blob, detail, cursor) =>
      var key := ObjectKey(job.id, job.index);
      if ReadVerified(w.store, key, Sha256(blob)).None? then Failed(w)
      else if !Live(w.o, job) then w.(pc := Idle)
      else
        var e := ObjectEntry(key, Sha256(blob), detail);
        var entries := PutAt(ObjectsOf(w.o, job.id), job.index, e);
        w.(o := w.o.(objects := w.o.objects[job.id := entries]),
           pc := Recorded(Counted(job), cursor, FileToCheck(detail, blob)))
    case Recorded(job, cursor, check) =>
      if check.Some? && !(check.value.0 in w.bucket && w.bucket[check.value.0] == check.value.1) then Failed(w)
      else Saved(w, job.(cursor := cursor))
    case GetFile(job, rowid, key, size) =>
      if key !in w.bucket || |w.bucket[key]| != size then Failed(w)
      else w.(pc := PutObject(job, FileBlob(w.bucket[key]), FileDetail(key), rowid))
    case PutManifest(job, m) =>
      var key := ManifestKey(job.id);
      if ReadVerified(w.store, key, Sha256(ManifestBlob(m))).None? then Failed(w)
      else if !Live(w.o, job) then w.(pc := Idle)
      else
        var receipt := Receipt(job.id, key, Sha256(ManifestBlob(m)), |m.objects|);
        var o := w.o.(archives := w.o.archives[job.id := receipt]);
        var w' := w.(o := Save(o, o.record.(latestArchive := Some(receipt)), 2, w.now));
        var job' := job.(receipt := Some(receipt));
        if job.action == Archive then Finish(w', job', Active, false) else Saved(w', job'.(stage := Erase))
    case FileErased(job, files) =>
      if files == [] || !Live(w.o, job) then w.(pc := Idle)
      else
        var left := Rows(w.o.content, Attachments) - {files[0].rowid};
        var w' := w.(o := w.o.(content := w.o.content[Attachments := left]));
        if |files| > 1 then w'.(pc := EraseFile(job, files[1..])) else Saved(w', job)
    case NeedManifest(job) =>
      var m := ManifestFor(w.store, job);
      if m.None? then Failed(w)
      else if !Live(w.o, job) then w.(pc := Idle)
      else HasManifest(w, job, m.value)
    case NeedObject(job, m) =>
      if |m.objects| <= job.index then Failed(w)
      else
        var e := m.objects[job.index];
        var read := ReadVerified(w.store, e.key, e.hash);
        if read.None? then Failed(w) else HasObject(w, job, e, read.value)
    case NeedFile(job, m) =>
      if |m.objects| <= job.index then Failed(w)
      else
        var e := m.objects[job.index];
        if e.detail.FileDetail? && e.detail.file in w.bucket && Sha256(FileBlob(w.bucket[e.detail.file])) == e.hash
        then Saved(w, Counted(job))
        else Failed(w)
    case FilePut(job) => Saved(w, Counted(job))
    case _ => w
  }

  // ---- Everything that can happen ----

  datatype Event =
    | StartStep                                   // an alarm runs the next step
    | Effect                                      // a bucket call takes effect
    | Answer                                      // the awaited call answers
    | Error                                       // the awaited call fails
    | Crash                                       // the process is lost
    | StoreGrew(key: StoreKey, blob: Blob)        // someone writes an absent archive key
    | TimePassed(ms: nat)
    | Request(content: Content, bucket: map<string, Bytes>)  // a content mutation is attempted
    | Ticked
    | AdminBegin(action: Action, archive: nat)
    | CapabilityDeleted
    | Canceled
    | PolicyEdited(version: nat, policy: Policy)
    | Retried

  /** The files in the live bucket are those attachment rows name. */
  ghost predicate Named(c: Content, bucket: map<string, Bytes>) {
    forall key | key in bucket ::
      exists k :: k in Rows(c, Attachments) && Rows(c, Attachments)[k].AttachmentRow? && Rows(c, Attachments)[k].key == key
  }

  /** What the schema and the upload path keep true of live content. */
  ghost predicate WellKept(kind: Kind, c: Content, bucket: map<string, Bytes>) {
    && SingleMeta(c)
    && Named(c, bucket)
    && (forall t | t in c :: t in TableNames(kind))
  }

  /** Every table is created with the object, except `linked_spaces`. */
  ghost predicate Schema(kind: Kind, c: Content) {
    forall t | t in TableNames(kind) && t != LinkedSpaces :: t in c
  }

  /** A content mutation checks availability after its last await, then records activity. */
  function Mutate(w: World, content: Content, bucket: map<string, Bytes>): World {
    if !Available(w.o.record, w.now) then w
    else w.(o := Save(w.o.(content := content), w.o.record.(lastActivityAt := w.now), 1, w.now), bucket := bucket)
  }

  function EditPolicy(w0: World, version: nat, policy: Policy): World {
    var w := Tick(w0);
    if w.o.record.state != Active || w.o.job.Some? || version != w.o.record.policyVersion then w
    else Tick(w.(o := Save(w.o, w.o.record.(policy := policy, policyVersion := w.o.record.policyVersion + 1), 2, w.now)))
  }

  function BeginByAdmin(w0: World, action: Action, archive: nat): World {
    var w := Tick(w0);
    if action != Restore then Begin(w, action, Admin, None)
    else if archive in w.o.archives then Begin(w, Restore, Admin, Some(w.o.archives[archive]))
    else w
  }

  ghost function Apply(w: World, ev: Event): World {
    match ev
    case StartStep => Start(w)
    case Effect => Land(w)
    case Answer => Resume(w)
    case Error => Failed(w)
    case Crash => w.(pc := Idle)
    case StoreGrew(key, blob) => if key in w.store then w else w.(store := w.store[key := blob])
    case TimePassed(ms) => w.(now := w.now + ms)
    case Request(content, bucket) =>
      if WellKept(w.o.record.kind, content, bucket) && Schema(w.o.record.kind, content) then Mutate(w, content, bucket) else w
    case Ticked => Tick(w)
    case AdminBegin(action, archive) => BeginByAdmin(w, action, archive)
    case CapabilityDeleted => if Available(w.o.record, w.now) then Begin(w, Delete, CapabilityDelete, None) else w
    case Canceled => Cancel(Tick(w))
    case PolicyEdited(version, policy) => EditPolicy(w, version, policy)
    case Retried => var w' := Tick(w); if w'.o.job.Some? then w'.(o := Save(w'.o, w'.o.record, 2, w'.now)) else w'
  }

  // ---- What the proofs remember ----

  /** The content frozen when the current archive job began, and for every archive
      job ever begun what its backup is to hold. */
  datatype History = History(frozen: Content, frozenFiles: map<string, Bytes>, snaps: map<nat, Snapshot>)

  function ReadyFiles(c: Content, bucket: map<string, Bytes>): map<string, Bytes> {
    var ready := ReadyOnly(Rows(c, Attachments));
    map k | k in ready && ready[k].key in bucket :: ready[k].key := bucket[ready[k].key]
  }

  function SnapshotOf(c: Content, bucket: map<string, Bytes>): Snapshot {
    Snapshot(Kept(c), ReadyFiles(c, bucket))
  }

  predicate ArchiveBegan(w: World, w': World) {
    w'.o.job.Some? && w'.o.job.value.id == w.nextId && w'.o.job.value.stage == Snapshots
  }

  ghost function Remember(h: History, w: World, w': World): History {
    if ArchiveBegan(w, w')
    then History(w'.o.content, w'.bucket, h.snaps[w.nextId := SnapshotOf(w'.o.content, w'.bucket)])
    else h
  }

  ghost function Run(w: World, h: History, evs: seq<Event>): (World, History)
    decreases |evs|
  {
    if evs == [] then (w, h)
    else
      var w' := Apply(w, evs[0]);
      Run(w', Remember(h, w, w'), evs[1..])
  }

  /** A resource just created: active, no job, nothing archived. */
  ghost predicate Init(w: World) {
    && w.o.record.state == Active && w.o.job.None? && w.pc.Idle?
    && w.o.archives == map[] && w.o.objects == map[]
    && 0 < w.o.dirty
    && WellKept(w.o.record.kind, w.o.content, w.bucket)
    && Schema(w.o.record.kind, w.o.content)
  }
}
