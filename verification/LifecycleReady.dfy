/** What every reachable state has ready for the steps still to come: beyond being
    safe, a job left alone has what it needs to finish. */
module LifecycleReady {
  import opened Options
  import opened Tables
  import opened Backup
  import opened Lifecycle
  import opened LifecycleInvariant
  import opened LifecycleSteps
  import opened LifecycleFrames
  import opened LifecycleTheorems
  import opened LifecycleResults

  /** A chunk has rows, and a file object has the bytes its file had. */
  ghost predicate SolidEntry(e: ObjectEntry, files: map<string, Bytes>) {
    match e.detail
    case TableDetail(_, _) => e.hash.preimage.RowsBlob? && e.hash.preimage.rows != []
    case FileDetail(file) => e.hash.preimage.FileBlob? && file in files && files[file] == e.hash.preimage.bytes
  }

  ghost predicate Solid(objects: seq<ObjectEntry>, files: map<string, Bytes>) {
    forall i | 0 <= i < |objects| :: SolidEntry(objects[i], files)
  }

  ghost predicate SolidArchive(store: Store, r: Receipt, files: map<string, Bytes>) {
    r.key in store && store[r.key].ManifestBlob? && Solid(store[r.key].manifest.objects, files)
  }

  ghost predicate ArchivesSolid(archives: map<nat, Receipt>, store: Store, snaps: map<nat, Snapshot>) {
    forall id | id in archives :: id in snaps && SolidArchive(store, archives[id], snaps[id].files)
  }

  /** While rows are written back every table of the manifest exists. */
  ghost predicate RoomMade(store: Store, j: Job, c: Content) {
    ManifestFor(store, j).Some? && forall t | t in ManifestFor(store, j).value.tables :: t in c
  }

  ghost predicate JobReady(j: Job, c: Content, bucket: map<string, Bytes>, store: Store, objs: seq<ObjectEntry>) {
    match j.stage
    case Erase => true
    case RestoreVerify => true
    case RestoreWrite => RoomMade(store, j, c)
    case RestoreCheck => RoomMade(store, j, c)
    case _ => Solid(objs, bucket)
  }

  /** The file of a finished attachment is there, with its size. */
  ghost predicate Sound(c: Content, bucket: map<string, Bytes>, rowid: int) {
    var ready := ReadyOnly(Rows(c, Attachments));
    rowid in ready ==> ready[rowid].key in bucket && |bucket[ready[rowid].key]| == ready[rowid].size
  }

  /** What a running step of the stored job has made sure of. */
  ghost predicate StepSure(pc: Pc, stage: Stage, c: Content, bucket: map<string, Bytes>) {
    match pc
    case GetFile(_, rowid, _, size) =>
      var ready := ReadyOnly(Rows(c, Attachments)); rowid in ready && size == ready[rowid].size
    case PutObject(_, _, _, cursor) => stage == Files ==> Sound(c, bucket, cursor)
    case Recorded(_, cursor, check) =>
      && (stage == Files ==> Sound(c, bucket, cursor))
      && (check.Some? ==> check.value.0 in bucket && bucket[check.value.0] == check.value.1)
    case NeedObject(job, m) =>
      stage == RestoreCheck && job.index < |m.objects| ==> m.objects[job.index].detail.TableDetail?
    case NeedFile(job, m) => job.index < |m.objects| ==> m.objects[job.index].detail.FileDetail?
    case _ => true
  }

  ghost predicate Ready(w: World, h: History) {
    && Schema(w.o.record.kind, w.o.content)
    && ArchivesSolid(w.o.archives, w.store, h.snaps)
    && (w.o.job.Some? ==> JobReady(w.o.job.value, w.o.content, w.bucket, w.store, ObjectsOf(w.o, w.o.job.value.id)))
    && (w.o.job.Some? && !w.pc.Idle? && Live(w.o, w.pc.job) ==>
          StepSure(w.pc, w.o.job.value.stage, w.o.content, w.bucket))
  }

  // ---- Events that leave content, files and archives alone ----

  lemma QuietReady(w: World, h: History, w': World, h': History)
    requires Ids(w, h) && Quiet(w, w')
    requires Recalls(h, h')
    requires Ready(w, h)
    ensures Ready(w', h')
  {
    hide Schema, SolidArchive, RoomMade, StepSure, SolidEntry;
  }

  // ---- Steps that only move the job or the step on ----

  lemma JobReadyMoves(j: Job, j': Job, c: Content, bucket: map<string, Bytes>, store: Store, objs: seq<ObjectEntry>)
    requires JobReady(j, c, bucket, store, objs) && j'.receipt == j.receipt
    requires BackingUp(j.stage) <==> BackingUp(j'.stage)
    requires j'.stage == j.stage || j'.stage == Erase || BackingUp(j.stage) || (j.stage == RestoreWrite && j'.stage == RestoreCheck)
    ensures JobReady(j', c, bucket, store, objs)
  {
    hide Solid;
    SameManifest(store, j, j');
  }

  /** `live(job); saveJob(job)`. */
  lemma SavedReady(w: World, h: History, j': Job)
    requires w.o.job.Some? && j'.id == w.o.job.value.id ==>
               JobReady(j', w.o.content, w.bucket, w.store, ObjectsOf(w.o, j'.id))
    requires Ready(w, h)
    ensures Ready(Saved(w, j'), h)
  {
    hide Schema, ArchivesSolid, StepSure, JobReady;
  }

  lemma FinishReady(w: World, h: History, job: Job, state: ResourceState, clear: bool)
    requires Live(w.o, job)
    requires Ready(w, h)
    ensures Ready(Finish(w, job, state, clear), h)
  {
    hide ArchivesSolid, StepSure, JobReady, Finish;
    FinishParts(w, job, state, clear);
  }

  lemma WaitReady(w: World, h: History, pc: Pc)
    requires w.o.job.Some? && !pc.Idle? && Live(w.o, pc.job) ==> StepSure(pc, w.o.job.value.stage, w.o.content, w.bucket)
    requires Ready(w, h)
    ensures Ready(w.(pc := pc), h)
  {
    hide Schema, ArchivesSolid, StepSure, JobReady;
  }

  lemma StartReady(w: World, h: History)
    requires Inv(w, h) && Ready(w, h)
    ensures Ready(Start(w), h)
  {
    hide Inv, Ready, Finish, Saved, SnapshotRows, Select, JobReady, Start;
    if w.pc.Idle? && w.o.job.Some? {
      var j := w.o.job.value;
      StoredReady(w, h);
      match j.stage {
        case Snapshots =>
          StartSnapshotsIs(w);
          var all := AllTables(w.o.record.kind, w.o.content);
          if |all| <= j.table {
            MoveReady(w, h, j.(stage := Files, cursor := -1));
          } else {
            var rows := SnapshotRows(w.o.content, all[j.table], j.cursor);
            if rows == [] { MoveReady(w, h, NextTable(j)); }
            else { WaitReady(w, h, Start(w).pc); }
          }
        case Files => StartFilesReady(w, h);
        case WriteManifest => StartWaits(w); WaitReady(w, h, Start(w).pc);
        case Erase => StartEraseIs(w); FinishReady(w, h, j, Deleted, true); if Start(w).pc.EraseFile? { WaitReady(w, h, Start(w).pc); }
        case _ => StartWaits(w); WaitReady(w, h, Start(w).pc);
      }
    } else {
      StartIdles(w);
    }
  }

  lemma StoredReady(w: World, h: History)
    requires w.o.job.Some?
    requires Ready(w, h)
    ensures JobReady(w.o.job.value, w.o.content, w.bucket, w.store, ObjectsOf(w.o, w.o.job.value.id))
    ensures Schema(w.o.record.kind, w.o.content)
    ensures LiveStep(w) ==> StepSure(w.pc, w.o.job.value.stage, w.o.content, w.bucket)
  {
    hide Schema, ArchivesSolid, StepSure, JobReady;
  }

  lemma MoveReady(w: World, h: History, j': Job)
    requires w.o.job.Some?
    requires var j := w.o.job.value;
      && j'.id == j.id && j'.receipt == j.receipt && (BackingUp(j.stage) <==> BackingUp(j'.stage))
      && (j'.stage == j.stage || j'.stage == Erase || BackingUp(j.stage) || (j.stage == RestoreWrite && j'.stage == RestoreCheck))
    requires Ready(w, h)
    ensures Ready(Saved(w, j'), h)
  {
    hide *;
    StoredReady(w, h);
    JobReadyMoves(w.o.job.value, j', w.o.content, w.bucket, w.store, ObjectsOf(w.o, j'.id));
    SavedReady(w, h, j');
  }

  lemma StartIdles(w: World)
    requires !w.pc.Idle? || w.o.job.None?
    ensures Start(w) == w
  {
    hide Existing, ReadyOnly, Rows, SnapshotRows, TableNames, Finish, ObjectsOf, Saved, Cursor, Select;
  }

  lemma StartWaits(w: World)
    requires w.pc.Idle? && w.o.job.Some? && (w.o.job.value.stage == WriteManifest || RestoringStage(w.o.job.value.stage))
    ensures Start(w) == w.(pc := Start(w).pc) && (Start(w).pc.PutManifest? || Start(w).pc.NeedManifest?)
  {
    hide Existing, TableNames, ReadyOnly, Rows, SnapshotRows, Finish;
  }

  lemma StartFilesReady(w: World, h: History)
    requires w.pc.Idle? && JobAt(w, Files)
    requires Inv(w, h) && Ready(w, h)
    ensures Ready(Start(w), h)
  {
    hide Inv, Ready, Saved, Start, Covered, WellKept, SnapshotOf, ReadyOnly, Rows, SingleMeta, Live, ArchivesHold;
    StoredJob(w, h);
    MetaOf(w.o.record.kind, w.o.content, w.bucket);
    StartFilesIs(w);
    var j := w.o.job.value;
    if Above(ReadyOnly(Rows(w.o.content, Attachments)), j.cursor) == {} {
      MoveReady(w, h, j.(stage := WriteManifest));
    } else {
      WaitReady(w, h, Start(w).pc);
    }
  }

  // ---- Effects ----

  /** Only an erase and a restore touch live files. */
  lemma LandsOutsideBackup(w: World, h: History)
    requires w.pc.EraseFile? || w.pc.PutFile?
    requires Inv(w, h)
    ensures !BackupJob(w)
  {
    hide ArchivesHold, Holding, Shape, Ids, ManifestFor, FromTable, IsFile;
  }

  lemma BucketReady(w: World, h: History, bucket: map<string, Bytes>, pc: Pc)
    requires !BackupJob(w) && (pc.FileErased? || pc.FilePut?)
    requires Ready(w, h)
    ensures Ready(w.(bucket := bucket, pc := pc), h)
  {
    hide ArchivesSolid, Schema, RoomMade;
  }

  lemma LandReady(w: World, h: History)
    requires Inv(w, h) && Ready(w, h)
    ensures Ready(Land(w), h)
  {
    hide Inv, Ready;
    if w.pc.EraseFile? || w.pc.PutFile? {
      LandsOutsideBackup(w, h);
      if Land(w) != w { BucketReady(w, h, Land(w).bucket, Land(w).pc); }
    }
  }

  lemma GrowsReady(w: World, h: History, store': Store)
    requires Grows(w.store, store')
    requires Inv(w, h) && Ready(w, h)
    ensures Ready(w.(store := store'), h)
  {
    hide Inv, Solid, StepSure, Schema;
  }

  // ---- Answers ----

  lemma FailedReady(w: World, h: History)
    requires Ready(w, h)
    ensures Ready(Failed(w), h) && Ready(w.(pc := Idle), h)
  {
    hide ArchivesSolid, Schema, JobReady, StepSure;
  }

  lemma DueIsSolid(c: Content, all: seq<TableName>, bucket: map<string, Bytes>, j: Job, blob: Blob, detail: Detail, cursor: int, key: StoreKey)
    requires Due(c, all, bucket, j, blob, detail, cursor)
    ensures SolidEntry(ObjectEntry(key, Sha256(blob), detail), bucket)
    ensures detail.FileDetail? ==> blob.FileBlob? && detail.file in bucket && bucket[detail.file] == blob.bytes
  {
    hide SnapshotRows;
  }

  lemma SolidPut(objs: seq<ObjectEntry>, index: nat, e: ObjectEntry, files: map<string, Bytes>)
    requires Solid(objs, files) && SolidEntry(e, files)
    ensures Solid(PutAt(objs, index, e), files)
  {
    hide SolidEntry;
  }

  lemma RecordReady(w: World, h: History, j: Job, entries: seq<ObjectEntry>, pc: Pc)
    requires w.o.job == Some(j) && BackingUp(j.stage) && StepOf(pc, j.id)
    requires Solid(entries, w.bucket) && StepSure(pc, j.stage, w.o.content, w.bucket)
    requires Ready(w, h)
    ensures Ready(w.(o := w.o.(objects := w.o.objects[j.id := entries]), pc := pc), h)
  {
    hide Schema, ArchivesSolid, StepSure, Solid;
  }

  lemma ObjectReady(w: World, h: History)
    requires w.pc.PutObject?
    requires Inv(w, h) && Ready(w, h)
    ensures Ready(Resume(w), h)
  {
    hide Inv, Ready, Covered, Due, Holds, ArchivesHold, ReadVerified, AllTables, Resume, Failed, PutAt, WellKept, SnapshotOf,
         Solid, SolidEntry, Sound;
    FailedReady(w, h);
    var pc := w.pc;
    AnswerObjectIs(w, pc.job, pc.blob, pc.detail, pc.cursor);
    var key := ObjectKey(pc.job.id, pc.job.index);
    if ReadVerified(w.store, key, Sha256(pc.blob)).Some? && Live(w.o, pc.job) {
      StepKnows(w, h);
      BackupStep(w, h);
      StoredReady(w, h);
      var j := w.o.job.value;
      var e := ObjectEntry(key, Sha256(pc.blob), pc.detail);
      DueIsSolid(w.o.content, AllTables(w.o.record.kind, w.o.content), w.bucket, j, pc.blob, pc.detail, pc.cursor, key);
      SolidPut(ObjectsOf(w.o, j.id), j.index, e, w.bucket);
      RecordReady(w, h, j, PutAt(ObjectsOf(w.o, j.id), j.index, e), Resume(w).pc);
    }
  }

  lemma RecordedReady(w: World, h: History)
    requires w.pc.Recorded?
    requires Inv(w, h) && Ready(w, h)
    ensures Ready(Resume(w), h)
  {
    hide Inv, Ready, Saved, Failed, Due, AllTables, ArchivesHold, BackingUp, JobHeld;
    FailedReady(w, h);
    if Live(w.o, w.pc.job) {
      StepKnows(w, h);
      MoveReady(w, h, w.pc.job.(cursor := w.pc.cursor));
    } else {
      SavedIdle(w, w.pc.job.(cursor := w.pc.cursor));
    }
  }

  lemma FileReady(w: World, h: History)
    requires w.pc.GetFile?
    requires Inv(w, h) && Ready(w, h)
    ensures Ready(Resume(w), h)
  {
    hide Inv, Ready, Failed, Covered, WellKept, SnapshotOf, AllTables, ManifestFor;
    FailedReady(w, h);
    if w.pc.key in w.bucket && |w.bucket[w.pc.key]| == w.pc.size {
      if Live(w.o, w.pc.job) {
        StepKnows(w, h);
        StoredReady(w, h);
      }
      WaitReady(w, h, Resume(w).pc);
    }
  }

  /** A file object of a complete list is one of its files. */
  lemma {:induction false} FileListed(objects: seq<ObjectEntry>, i: nat)
    requires i < |objects| && objects[i].detail.FileDetail? && objects[i].hash.preimage.FileBlob?
    ensures objects[i].detail.file in FilesOf(objects)
    decreases |objects|
  {
    if i < |objects| - 1 { FileListed(objects[..|objects| - 1], i); }
  }

  /** The files of a complete list of objects are the snapshot's. */
  lemma SolidSnapshot(objects: seq<ObjectEntry>, c: Content, bucket: map<string, Bytes>)
    requires Solid(objects, bucket) && FilesOf(objects) == ReadyFiles(c, bucket)
    ensures Solid(objects, ReadyFiles(c, bucket))
  {
    hide FilesOf;
    forall i | 0 <= i < |objects| ensures SolidEntry(objects[i], ReadyFiles(c, bucket)) {
      assert SolidEntry(objects[i], bucket);
      if objects[i].detail.FileDetail? { FileListed(objects, i); }
    }
  }

  lemma ReceiptSolid(w: World, h: History, j: Job, m: Manifest)
    requires w.pc == PutManifest(j, m) && LiveStep(w)
    requires ManifestStored(w)
    requires Inv(w, h) && Ready(w, h)
    ensures ArchivesSolid(Receipted(w, j, m).o.archives, w.store, h.snaps)
  {
    hide Inv, AllStored, TablesFirst, AllTablesDone, AllTables, WellKept, Solid, FilesOf, ReadyFiles, Kept;
    StepKnows(w, h);
    BackupStep(w, h);
    var objs := ObjectsOf(w.o, j.id);
    assert objs[..j.index] == objs;
    SolidSnapshot(objs, w.o.content, w.bucket);
    assert SolidArchive(w.store, ReceiptOf(j, m), h.snaps[j.id].files);
  }

  lemma ManifestReady(w: World, h: History)
    requires w.pc.PutManifest?
    requires Inv(w, h) && Ready(w, h)
    ensures Ready(Resume(w), h)
  {
    hide Inv, Failed, Finish, Saved, ReadVerified, ArchivesSolid, Schema, JobReady, Covered, WellKept, SnapshotOf, ManifestFor, AllTables;
    FailedReady(w, h);
    if ManifestStored(w) && LiveStep(w) {
      var j, m := w.pc.job, w.pc.manifest;
      AnswerManifestIs(w, j, m);
      ReceiptSolid(w, h, j, m);
      StepKnows(w, h);
      var w' := Receipted(w, j, m);
      var j' := j.(receipt := Some(ReceiptOf(j, m)));
      FinishReady(w', h, j', Active, false);
      ErasesReady(w', h, j'.(stage := Erase));
    }
  }

  lemma ErasesReady(w: World, h: History, j': Job)
    requires j'.stage == Erase
    requires Ready(w, h)
    ensures Ready(Saved(w, j'), h)
  {
    hide Ready, Saved;
    SavedReady(w, h, j');
  }

  lemma AbandonedAnswer(w: World)
    requires w.pc.FileErased? && !LiveStep(w)
    ensures Resume(w) == w.(pc := Idle)
  {
    hide Saved, Rows;
  }

  /** While files are erased a row may go. */
  lemma WithoutRowReady(w: World, h: History, rowid: nat)
    requires JobAt(w, Erase) && w.pc.FileErased?
    requires Ready(w, h)
    ensures Ready(w.(o := w.o.(content := WithoutRow(w.o.content, rowid))), h)
  {
    hide ArchivesSolid, TableNames, Rows;
  }

  lemma ErasedReady(w: World, h: History)
    requires w.pc.FileErased?
    requires Inv(w, h) && Ready(w, h)
    ensures Ready(Resume(w), h)
  {
    hide Inv, Ready, Resume, ManifestFor, Covered, WellKept, FromTable, Ascending, WithoutRow, Rows;
    if LiveStep(w) {
      StepKnows(w, h);
      var j, first, rest := w.pc.job, w.pc.files[0], w.pc.files[1..];
      assert w.pc.files == [first] + rest;
      ErasedIs(w, j, first, rest);
      WithoutRowReady(w, h, first.rowid);
      var w1 := w.(o := w.o.(content := WithoutRow(w.o.content, first.rowid)));
      WaitReady(w1, h, EraseFile(j, rest));
      ErasesReady(w1, h, j);
    } else {
      FailedReady(w, h);
      AbandonedAnswer(w);
    }
  }

  lemma ManifestReadReady(w: World, h: History)
    requires w.pc.NeedManifest?
    requires Inv(w, h) && Ready(w, h)
    ensures Ready(Resume(w), h)
  {
    hide Inv, Ready, Failed, Finish, Saved, ManifestFor, RoomFor, Covered, WellKept, SnapshotOf, Resume, RestoreOk;
    FailedReady(w, h);
    var j := w.pc.job;
    var m := ManifestFor(w.store, j);
    if m.None? || !Live(w.o, j) {
      NotRead(w, j);
    } else {
      HasManifestIs(w, j, m.value);
      StepKnows(w, h);
      if j.index < |m.value.objects| {
        MoreToRead(w, j, m.value);
        WaitReady(w, h, HasManifest(w, j, m.value).pc);
      } else if j.stage == RestoreVerify {
        RoomReady(w, h, j, m.value);
      } else if j.stage == RestoreWrite {
        MoveReady(w, h, ToCheck(j));
      } else {
        FinishReady(w, h, j.(source := m.value.resource), Active, false);
      }
    }
  }

  lemma NotRead(w: World, j: Job)
    requires w.pc == NeedManifest(j)
    ensures ManifestFor(w.store, j).None? ==> Resume(w) == Failed(w)
    ensures ManifestFor(w.store, j).Some? && !LiveStep(w) ==> Resume(w) == w.(pc := Idle)
  {
    hide Failed, ManifestFor;
  }

  lemma MoreToRead(w: World, j: Job, m: Manifest)
    requires RestoringStage(j.stage) && j.index < |m.objects|
    ensures HasManifest(w, j, m) == w.(pc := HasManifest(w, j, m).pc)
    ensures var pc := HasManifest(w, j, m).pc; (pc.NeedObject? || pc.NeedFile?) && StepSure(pc, j.stage, w.o.content, w.bucket)
  {
    hide Failed, Finish, RoomFor;
  }

  /** Verified: room is made for every table the manifest names. */
  lemma RoomReady(w: World, h: History, j: Job, m: Manifest)
    requires w.pc == NeedManifest(j) && LiveStep(w) && j.stage == RestoreVerify
    requires ManifestFor(w.store, j) == Some(m)
    requires Inv(w, h) && Ready(w, h)
    ensures Ready(Saved(w.(o := w.o.(content := RoomFor(w.o.content, m.tables))), ToWrite(j)), h)
  {
    hide Inv, ManifestFor, ArchivesSolid, ArchiveHolds, RestoreOk, SingleMeta, Named, Describes, AllStored, RoomFor;
    RestoreStep(w, h);
    var snap := h.snaps[j.receipt.value.archive];
    ManifestIs(w.store, w.o.archives, snap, j);
    RoomForAll(w.o.record.kind, w.o.content, m.tables);
    SameManifest(w.store, j, ToWrite(j));
  }

  lemma RoomForAll(kind: Kind, c: Content, tables: seq<TableName>)
    requires Schema(kind, c) && forall t | t in tables :: t in TableNames(kind)
    ensures Schema(kind, RoomFor(c, tables)) && forall t | t in tables :: t in RoomFor(c, tables)
  {
  }

  lemma ObjectReadReady(w: World, h: History)
    requires w.pc.NeedObject?
    requires Inv(w, h) && Ready(w, h)
    ensures Ready(Resume(w), h)
  {
    hide Inv, Ready, Failed, Resume, HasObject, ReadVerified;
    FailedReady(w, h);
    var j, m := w.pc.job, w.pc.manifest;
    if |m.objects| <= j.index {
      NeedObjectShort(w, j, m);
    } else {
      var e := m.objects[j.index];
      NeedObjectIs(w, j, m, e);
      if ReadVerified(w.store, e.key, e.hash).Some? { ObjectThereReady(w, h, j, m, e); }
    }
  }

  lemma ObjectThereReady(w: World, h: History, j: Job, m: Manifest, e: ObjectEntry)
    requires w.pc == NeedObject(j, m)
    requires Inv(w, h) && Ready(w, h)
    ensures Ready(HasObject(w, j, e, e.hash.preimage), h)
  {
    hide Inv, Ready, Saved, Failed, HasObject, WriteEntry, Live, BackingUp;
    FailedReady(w, h);
    HasObjectIs(w, j, e, e.hash.preimage);
    if Live(w.o, j) {
      StepHasJob(w, h);
      MoveReady(w, h, Counted(j));
      WrittenReady(w, h, j, m, e);
      if e.detail.FileDetail? && e.hash.preimage.FileBlob? {
        WaitReady(w, h, PutFile(j, e.detail.file, e.hash.preimage.bytes));
      }
    }
  }

  lemma WrittenReady(w: World, h: History, j: Job, m: Manifest, e: ObjectEntry)
    requires w.pc == NeedObject(j, m) && LiveStep(w)
    requires Inv(w, h) && Ready(w, h)
    ensures j.stage == RestoreWrite ==>
      Ready(Saved(w.(o := w.o.(content := WriteEntry(w.o.content, e))), Counted(j)), h)
  {
    hide Inv, Ready, Saved, ManifestFor, InsertAll, EntryRows;
    StepHasJob(w, h);
    StoredReady(w, h);
    if j.stage == RestoreWrite {
      var w1 := w.(o := w.o.(content := WriteEntry(w.o.content, e)));
      ContentReady(w, h, w1.o.content);
      MoveReady(w1, h, Counted(j));
    }
  }

  /** New rows in the same tables, while a restore writes. */
  lemma ContentReady(w: World, h: History, c: Content)
    requires JobAt(w, RestoreWrite) && w.pc.NeedObject?
    requires forall t :: t in c <==> t in w.o.content
    requires Ready(w, h)
    ensures Ready(w.(o := w.o.(content := c)), h)
  {
    hide ArchivesSolid;
  }

  lemma FileBackReady(w: World, h: History)
    requires (w.pc.NeedFile? || w.pc.FilePut?)
    requires Inv(w, h) && Ready(w, h)
    ensures Ready(Resume(w), h)
  {
    hide Inv, Ready, Saved, Failed, ManifestFor, ArchivesHold, BackingUp, JobHeld;
    FailedReady(w, h);
    if Live(w.o, w.pc.job) {
      StepKnows(w, h);
      MoveReady(w, h, Counted(w.pc.job));
    } else {
      SavedIdle(w, Counted(w.pc.job));
    }
  }

  lemma ResumeReady(w: World, h: History)
    requires Inv(w, h) && Ready(w, h)
    ensures Ready(Resume(w), h)
  {
    hide *;
    match w.pc {
      case PutObject(_, _, _, _) => ObjectReady(w, h);
      case Recorded(_, _, _) => RecordedReady(w, h);
      case GetFile(_, _, _, _) => FileReady(w, h);
      case PutManifest(_, _) => ManifestReady(w, h);
      case FileErased(_, _) => ErasedReady(w, h);
      case NeedManifest(_) => ManifestReadReady(w, h);
      case NeedObject(_, _) => ObjectReadReady(w, h);
      case NeedFile(_, _) => FileBackReady(w, h);
      case FilePut(_) => FileBackReady(w, h);
      case _ => ResumeStays(w);
    }
  }

  // ---- Every event, every run ----

  lemma MutateReady(w: World, h: History, content: Content, bucket: map<string, Bytes>)
    requires Schema(w.o.record.kind, content)
    requires Inv(w, h) && Ready(w, h)
    ensures Ready(Mutate(w, content, bucket), h)
  {
    hide ArchivesSolid, Schema, ArchivesHold, Running, Holding;
  }

  lemma EventReady(w: World, h: History, ev: Event)
    requires Inv(w, h) && Ready(w, h)
    ensures Ready(Apply(w, ev), Remember(h, w, Apply(w, ev)))
  {
    hide Inv, Ready, Remember, WellKept, Schema, Failed, Land, Mutate, Resume;
    if IsRequest(ev) {
      RequestQuiet(w, ev);
      IdsOf(w, h);
      SnapsStay(w, h, Apply(w, ev));
      QuietReady(w, h, Apply(w, ev), Remember(h, w, Apply(w, ev)));
    } else {
      StepBeginsNothing(w, h, ev);
      match ev {
        case StartStep => StartReady(w, h);
        case Effect => LandReady(w, h);
        case Answer => ResumeReady(w, h);
        case Error => FailedReady(w, h);
        case Crash => FailedReady(w, h);
        case StoreGrew(key, blob) => if key !in w.store { GrowsReady(w, h, w.store[key := blob]); }
        case TimePassed(ms) => TimeReady(w, h, ms);
        case Request(content, bucket) =>
          if WellKept(w.o.record.kind, content, bucket) && Schema(w.o.record.kind, content) { MutateReady(w, h, content, bucket); }
        case _ =>
      }
    }
  }

  lemma TimeReady(w: World, h: History, ms: nat)
    requires Ready(w, h)
    ensures Ready(w.(now := w.now + ms), h)
  {
    hide ArchivesSolid, Schema, JobReady, StepSure;
  }

  lemma {:induction false} RunReady(w: World, h: History, evs: seq<Event>)
    requires Inv(w, h) && Ready(w, h)
    ensures Ready(Run(w, h, evs).0, Run(w, h, evs).1)
    decreases |evs|
  {
    hide Inv, Ready, Apply, Remember;
    if evs != [] {
      EventKept(w, h, evs[0]);
      EventReady(w, h, evs[0]);
      RunReady(Apply(w, evs[0]), Remember(h, w, Apply(w, evs[0])), evs[1..]);
    }
  }

  lemma ReachableReady(w: World, h: History)
    requires Reachable(w, h)
    ensures Ready(w, h)
  {
    hide Inv, Ready, Init, Run;
    var w0, evs :| Init(w0) && Run(w0, NOTHING_YET, evs) == (w, h);
    InitHolds(w0);
    InitReady(w0);
    RunReady(w0, NOTHING_YET, evs);
  }

  lemma InitReady(w: World)
    requires Init(w)
    ensures Ready(w, NOTHING_YET)
  {
    hide Schema, WellKept;
  }
}
