/** Every part of a step, started, answered, failed or cut off, keeps the
    lifecycle invariant. */
module LifecycleSteps {
  import opened Options
  import opened Tables
  import opened Backup
  import opened Lifecycle
  import opened LifecycleInvariant
  import opened LifecycleProofs

  // ---- The shapes a transition can take ----

  ghost predicate StageFits(j: Job) {
    && (BackingUp(j.stage) ==> j.action == Archive || j.action == ArchiveDelete)
    && (j.stage == Erase ==> j.action == Delete || j.action == ArchiveDelete)
    && (RestoringStage(j.stage) <==> j.action == Restore)
    && -1 <= j.cursor
  }

  ghost predicate Holds(w: World, h: History, j: Job) {
    JobHolding(w.o.record.kind, w.o.content, w.bucket, w.store, w.o.objects, w.o.archives, h, j)
  }

  ghost predicate JobHeld(w: World, h: History) {
    w.o.job.Some? && StageFits(w.o.job.value) && Holds(w, h, w.o.job.value)
  }

  ghost predicate StepHeld(w: World) {
    && LiveStep(w)
    && StepOk(w.pc, w.o.record.kind, w.o.content, w.bucket, w.store, ObjectsOf(w.o, w.pc.job.id), w.o.job.value)
  }

  /** The stored job, moved on. */
  ghost predicate Continues(w: World, j: Job) {
    w.o.job.Some? && j.id == w.o.job.value.id && j.action == w.o.job.value.action && StageFits(j)
  }

  lemma StoredJob(w: World, h: History)
    requires w.o.job.Some?
    requires Inv(w, h)
    ensures JobHeld(w, h)
    ensures ArchivesHold(w.o.record.kind, w.o.archives, w.store, h.snaps)
  {
    hide JobHolding, ArchivesHold, Running;
  }

  /** The end of a step: the job moves on, possibly with new content. */
  lemma SavedKept(w: World, h: History, c: Content, j: Job)
    requires Continues(w, j)
    requires JobHolding(w.o.record.kind, c, w.bucket, w.store, w.o.objects, w.o.archives, h, j)
    requires Inv(w, h)
    ensures Inv(Saved(w.(o := w.o.(content := c)), j), h)
  {
    hide JobHolding, ArchivesHold;
  }

  lemma SavedSame(w: World, h: History, j: Job)
    requires Continues(w, j)
    requires Inv(w, h) && Holds(w, h, j)
    ensures Inv(Saved(w, j), h)
  {
    hide Inv, Saved, JobHolding;
    SavedKept(w, h, w.o.content, j);
    assert w.(o := w.o.(content := w.o.content)) == w;
  }

  /** The step of the stored job waits for something else. */
  lemma WaitKept(w: World, h: History, pc: Pc)
    requires StepHeld(w.(pc := pc))
    requires Inv(w, h)
    ensures Inv(w.(pc := pc), h)
  {
    hide ArchivesHold, StepOk, Holding;
  }

  /** What a waiting step of the stored job knows. */
  lemma StepKnows(w: World, h: History)
    requires LiveStep(w)
    requires Inv(w, h)
    ensures StepHeld(w) && JobHeld(w, h)
    ensures ArchivesHold(w.o.record.kind, w.o.archives, w.store, h.snaps)
  {
    hide JobHolding, ArchivesHold, StepOk;
  }

  predicate StepsJob(w: World) { !w.pc.Idle? && w.o.job == Some(w.pc.job) }

  /** Until its object is recorded a live step's own copy of the job is the stored one. */
  lemma StepHasJob(w: World, h: History)
    requires LiveStep(w) && !w.pc.Recorded?
    requires Inv(w, h)
    ensures StepsJob(w)
  {
    hide Inv, Holds, Due, ManifestFor, AllTables, Rows;
    StepKnows(w, h);
  }

  /** What `finish` does to each part of the world. */
  lemma FinishParts(w: World, job: Job, state: ResourceState, clear: bool)
    requires Live(w.o, job)
    ensures var w' := Finish(w, job, state, clear);
            && w'.pc == Idle && w'.bucket == w.bucket && w'.store == w.store && w'.nextId == w.nextId
            && w'.o.content == (if clear then Cleared(w.o.content) else w.o.content)
            && w'.o.archives == w.o.archives && w'.o.objects == w.o.objects - {job.id}
            && w'.o.record.kind == w.o.record.kind && w'.o.record.state == state && w'.o.job == None
  {
  }

  lemma FinishKept(w: World, h: History, job: Job, state: ResourceState, clear: bool)
    requires Live(w.o, job)
    requires state == Active || state == Deleted
    requires state == Active ==> !clear && WellKept(w.o.record.kind, w.o.content, w.bucket)
    requires state == Deleted ==> clear && w.bucket == map[] && TablesNamed(w.o.record.kind, w.o.content)
    requires Inv(w, h)
    ensures Inv(Finish(w, job, state, clear), h)
  {
    hide Finish, ArchivesHold, WellKept, StepOk, Abandoned, JobHolding;
    FinishParts(w, job, state, clear);
    NoObjects(w, h);
    assert Empty(Cleared(w.o.content));
  }

  // ---- Snapshot progress ----

  /** An exhausted table: the job may turn to the next one. */
  lemma TableFinished(kind: Kind, c: Content, done: seq<ObjectEntry>, table: nat, cursor: int)
    requires WellKept(kind, c, map[]) || SingleMeta(c)
    requires TablesDone(c, AllTables(kind, c), done, table, cursor) && table < |AllTables(kind, c)|
    requires SnapshotRows(c, AllTables(kind, c)[table], cursor) == []
    ensures TablesDone(c, AllTables(kind, c), done, table + 1, -1)
  {
    var all := AllTables(kind, c);
    AllTablesDistinct(kind, c);
    ChunkAdvances(c, all[table], cursor);
    assert RowsOf(done, all[table]) == Listing(KeptTable(c, all[table]), -1);
    if table + 1 < |all| { assert RowsOf(done, all[table + 1]) == []; }
  }

  lemma TablesFinished(kind: Kind, c: Content, bucket: map<string, Bytes>, done: seq<ObjectEntry>, table: nat, cursor: int)
    requires WellKept(kind, c, bucket) && NoFiles(done)
    requires TablesDone(c, AllTables(kind, c), done, table, cursor) && table == |AllTables(kind, c)|
    ensures AllTablesDone(c, done) && FilesDone(c, bucket, done, -1)
  {
    var all := AllTables(kind, c);
    forall t ensures RowsOf(done, t) == Listing(Rows(Kept(c), t), -1) {
      if t in all {
        var i :| 0 <= i < |all| && all[i] == t;
        assert Rows(Kept(c), t) == KeptTable(c, t);
      } else {
        assert t !in c;
        assert Rows(Kept(c), t) == map[];
      }
    }
    FilesOnlyFromFiles(done);
  }

  /** One more chunk of the current table. */
  lemma ChunkRecorded(kind: Kind, c: Content, done: seq<ObjectEntry>, j: Job, e: ObjectEntry, cursor: int)
    requires SingleMeta(c) && j.stage == Snapshots
    requires TablesDone(c, AllTables(kind, c), done, j.table, j.cursor)
    requires Due(c, AllTables(kind, c), map[], j, e.hash.preimage, e.detail, cursor)
    ensures TablesDone(c, AllTables(kind, c), done + [e], j.table, cursor)
  {
    hide SnapshotRows, KeptTable, Listing, AllTables;
    var all := AllTables(kind, c);
    var t := all[j.table];
    AllTablesDistinct(kind, c);
    ChunkAdvances(c, t, j.cursor);
    Append(done, e);
    var rows := SnapshotRows(c, t, j.cursor);
    assert EntryRows(e, t) == rows;
    forall u | u != t ensures RowsOf(done + [e], u) == RowsOf(done, u) { assert EntryRows(e, u) == []; }
    assert RowsOf(done + [e], t) + Listing(KeptTable(c, t), cursor) == RowsOf(done, t) + (rows + Listing(KeptTable(c, t), cursor));
  }

  /** One more file. */
  lemma FileRecorded(c: Content, all: seq<TableName>, bucket: map<string, Bytes>, done: seq<ObjectEntry>, j: Job, e: ObjectEntry, cursor: int)
    requires j.stage == Files && AllTablesDone(c, done) && FilesDone(c, bucket, done, j.cursor)
    requires Due(c, all, bucket, j, e.hash.preimage, e.detail, cursor)
    ensures AllTablesDone(c, done + [e]) && FilesDone(c, bucket, done + [e], cursor)
  {
    hide FilesOf;
    var ready := ReadyOnly(Rows(c, Attachments));
    Append(done, e);
    forall t ensures RowsOf(done + [e], t) == Listing(Rows(Kept(c), t), -1) { assert EntryRows(e, t) == []; }
    forall k | k in ready && k <= cursor ensures ready[k].key in FilesOf(done + [e]) {
      if k > j.cursor { assert k in Above(ready, j.cursor); }
    }
  }

  lemma FilesFinished(kind: Kind, c: Content, bucket: map<string, Bytes>, done: seq<ObjectEntry>, cursor: int)
    requires FilesDone(c, bucket, done, cursor) && Above(ReadyOnly(Rows(c, Attachments)), cursor) == {}
    ensures FilesOf(done) == ReadyFiles(c, bucket)
  {
    hide FilesOf, ReadyOnly, Rows;
    var ready := ReadyOnly(Rows(c, Attachments));
    assert forall k | k in ready :: k <= cursor by { assert forall k | k in ready && cursor < k :: k in Above(ready, cursor); }
    forall key ensures key in FilesOf(done) <==> key in ReadyFiles(c, bucket) {
    }
  }

  // ---- Start ----

  /** A stage whose objects are all counted hands on to the next stage. */
  lemma StageDone(kind: Kind, c: Content, bucket: map<string, Bytes>, store: Store, objs: seq<ObjectEntry>, j: Job)
    requires Covered(kind, c, bucket, store, objs, j) && BackingUp(j.stage) && !MoreDue(c, AllTables(kind, c), j)
    requires WellKept(kind, c, bucket)
    ensures |objs| == j.index && objs[..j.index] == objs
    ensures j.stage == Snapshots && j.table < |AllTables(kind, c)| ==>
              Covered(kind, c, bucket, store, objs, NextTable(j))
    ensures j.stage == Snapshots && j.table == |AllTables(kind, c)| ==>
              Covered(kind, c, bucket, store, objs, j.(stage := Files, cursor := -1))
    ensures j.stage == Files ==> Covered(kind, c, bucket, store, objs, j.(stage := WriteManifest))
  {
    hide KeptTable, Listing, AllTables, WellKept, SnapshotRows, AllStored, ReadyFiles, FilesDone, AllTablesDone, TablesFirst;
    assert |objs| == j.index;
    assert objs[..j.index] == objs;
    if j.stage == Snapshots {
      hide TablesDone;
      assert SingleMeta(c) by { MetaOf(kind, c, bucket); }
      CoveredInRange(kind, c, bucket, store, objs, j);
      if j.table < |AllTables(kind, c)| {
        TableFinished(kind, c, objs, j.table, j.cursor);
      } else {
        TablesFinished(kind, c, bucket, objs, j.table, j.cursor);
      }
    } else if j.stage == Files {
      FilesFinished(kind, c, bucket, objs, j.cursor);
    }
  }

  lemma MetaOf(kind: Kind, c: Content, bucket: map<string, Bytes>)
    requires WellKept(kind, c, bucket)
    ensures SingleMeta(c)
    ensures kind == Chat ==> Rows(c, Attachments) == map[]
  {
  }

  /** The backup stages of a step without an external call. */
  lemma StageKept(w: World, h: History, j: Job, j': Job)
    requires w.o.job == Some(j) && BackingUp(j.stage)
    requires !MoreDue(w.o.content, AllTables(w.o.record.kind, w.o.content), j)
    requires var n := |AllTables(w.o.record.kind, w.o.content)|;
             || (j.stage == Snapshots && j.table < n && j' == NextTable(j))
             || (j.stage == Snapshots && j.table == n && j' == j.(stage := Files, cursor := -1))
             || (j.stage == Files && j' == j.(stage := WriteManifest))
    requires Inv(w, h)
    ensures Inv(Saved(w, j'), h)
  {
    hide Inv, Covered, WellKept, AllTables, MoreDue, Saved, RestoreOk, SnapshotOf, ArchivesHold;
    StoredJob(w, h);
    StageDone(w.o.record.kind, w.o.content, w.bucket, w.store, ObjectsOf(w.o, j.id), j);
    SavedSame(w, h, j');
  }

  lemma StartSnapshotsIs(w: World)
    requires w.pc.Idle? && JobAt(w, Snapshots)
    ensures var j := w.o.job.value;
            var all := AllTables(w.o.record.kind, w.o.content);
            Start(w) ==
              if |all| <= j.table then Saved(w, j.(stage := Files, cursor := -1))
              else
                var rows := SnapshotRows(w.o.content, all[j.table], j.cursor);
                if rows == [] then Saved(w, NextTable(j))
                else w.(pc := PutObject(j, RowsBlob(rows), TableDetail(all[j.table], |rows|), Cursor(rows, j.cursor)))
  {
    hide Saved, SnapshotRows, Existing, TableNames;
  }

  lemma StartFilesIs(w: World)
    requires w.pc.Idle? && JobAt(w, Files)
    requires w.o.record.kind == Chat ==> Rows(w.o.content, Attachments) == map[]
    ensures var j := w.o.job.value;
            var ready := ReadyOnly(Rows(w.o.content, Attachments));
            Start(w) ==
              if Above(ready, j.cursor) == {} then Saved(w, j.(stage := WriteManifest))
              else
                var k := Least(ready, j.cursor);
                w.(pc := GetFile(j, k, ready[k].key, ready[k].size))
  {
    hide Saved, SnapshotRows, Existing, TableNames;
    var j := w.o.job.value;
    var ready := ReadyOnly(Rows(w.o.content, Attachments));
    if Above(ready, j.cursor) != {} {
      var k := Least(ready, j.cursor);
      assert Select(ready, j.cursor, 1) == [Listed(k, ready[k])];
    }
  }

  lemma StartSnapshots(w: World, h: History)
    requires w.pc.Idle? && JobAt(w, Snapshots)
    requires Inv(w, h)
    ensures Inv(Start(w), h)
  {
    hide Inv, Start, Covered, WellKept, AllTables, SnapshotRows, Saved, RestoreOk, SnapshotOf, ArchivesHold;
    StoredJob(w, h);
    StartSnapshotsIs(w);
    var j := w.o.job.value;
    var all := AllTables(w.o.record.kind, w.o.content);
    CoveredInRange(w.o.record.kind, w.o.content, w.bucket, w.store, ObjectsOf(w.o, j.id), j);
    if |all| <= j.table {
      StageKept(w, h, j, j.(stage := Files, cursor := -1));
    } else {
      var rows := SnapshotRows(w.o.content, all[j.table], j.cursor);
      if rows == [] {
        StageKept(w, h, j, NextTable(j));
      } else {
        WaitKept(w, h, PutObject(j, RowsBlob(rows), TableDetail(all[j.table], |rows|), Cursor(rows, j.cursor)));
      }
    }
  }

  lemma CoveredInRange(kind: Kind, c: Content, bucket: map<string, Bytes>, store: Store, objs: seq<ObjectEntry>, j: Job)
    requires Covered(kind, c, bucket, store, objs, j) && j.stage == Snapshots
    ensures j.table <= |AllTables(kind, c)|
  {
    hide AllTables, AllStored, TablesFirst;
  }

  lemma StartFiles(w: World, h: History)
    requires w.pc.Idle? && JobAt(w, Files)
    requires Inv(w, h)
    ensures Inv(Start(w), h)
  {
    hide Inv, Start, Covered, WellKept, AllTables, SnapshotRows, Saved, RestoreOk, SnapshotOf, ArchivesHold, Due;
    StoredJob(w, h);
    MetaOf(w.o.record.kind, w.o.content, w.bucket);
    StartFilesIs(w);
    var j := w.o.job.value;
    var ready := ReadyOnly(Rows(w.o.content, Attachments));
    if Above(ready, j.cursor) == {} {
      StageKept(w, h, j, j.(stage := WriteManifest));
    } else {
      var k := Least(ready, j.cursor);
      WaitKept(w, h, GetFile(j, k, ready[k].key, ready[k].size));
    }
  }

  lemma StartEraseIs(w: World)
    requires w.pc.Idle? && JobAt(w, Erase)
    ensures var files := if w.o.record.kind == Wiki then Select(Rows(w.o.content, Attachments), -1, ERASE_BATCH) else [];
      Start(w) == if files == [] then Finish(w, w.o.job.value, Deleted, true) else w.(pc := EraseFile(w.o.job.value, files))
  {
    hide Finish, Select, Rows, Existing, ReadyOnly, SnapshotRows, TableNames;
  }

  lemma EraseKnows(w: World, h: History)
    requires JobAt(w, Erase)
    requires Inv(w, h)
    ensures WellKept(w.o.record.kind, w.o.content, w.bucket) && TablesNamed(w.o.record.kind, w.o.content)
  {
    hide Inv, SnapshotOf, SingleMeta, Named;
    StoredJob(w, h);
  }

  lemma NoRowsNoFiles(kind: Kind, c: Content, bucket: map<string, Bytes>)
    requires WellKept(kind, c, bucket) && Above(Rows(c, Attachments), -1) == {}
    ensures bucket == map[]
  {
    assert forall k | k in Rows(c, Attachments) :: k in Above(Rows(c, Attachments), -1);
  }

  lemma StartErase(w: World, h: History)
    requires w.pc.Idle? && JobAt(w, Erase)
    requires Inv(w, h)
    ensures Inv(Start(w), h)
  {
    hide Inv, Finish, Start, WellKept, TablesNamed, Select, Rows;
    EraseKnows(w, h);
    StartEraseIs(w);
    var j := w.o.job.value;
    var m := Rows(w.o.content, Attachments);
    var files := if w.o.record.kind == Wiki then Select(m, -1, ERASE_BATCH) else [];
    MetaOf(w.o.record.kind, w.o.content, w.bucket);
    if files == [] {
      NoRowsNoFiles(w.o.record.kind, w.o.content, w.bucket);
      FinishKept(w, h, j, Deleted, true);
    } else {
      SelectExact(m, -1, ERASE_BATCH);
      WaitKept(w, h, EraseFile(j, files));
    }
  }

  lemma StartKept(w: World, h: History)
    requires Inv(w, h)
    ensures Inv(Start(w), h)
  {
    hide Inv, Finish, Saved, SnapshotRows, Select;
    if w.pc.Idle? && w.o.job.Some? {
      var j := w.o.job.value;
      match j.stage {
        case Snapshots => StartSnapshots(w, h);
        case Files => StartFiles(w, h);
        case WriteManifest =>
          WaitKept(w, h, PutManifest(j, Manifest(j.id, j.source, AllTables(w.o.record.kind, w.o.content), ObjectsOf(w.o, j.id))));
        case Erase => StartErase(w, h);
        case _ => WaitKept(w, h, NeedManifest(j));
      }
    }
  }

  // ---- Effects on the live bucket ----

  lemma EraseHolds(w: World, h: History, j: Job, c: Content, bucket: map<string, Bytes>)
    requires j.stage == Erase && WellKept(w.o.record.kind, c, bucket)
    requires Holds(w, h, j)
    ensures JobHolding(w.o.record.kind, c, bucket, w.store, w.o.objects, w.o.archives, h, j)
  {
    hide WellKept;
  }

  /** New content and files while the stored job erases. */
  lemma ErasedKept(w: World, h: History, j: Job, c: Content, bucket: map<string, Bytes>, pc: Pc)
    requires w.o.job == Some(j) && j.stage == Erase && StepOf(pc, j.id)
    requires WellKept(w.o.record.kind, c, bucket)
    requires StepOk(pc, w.o.record.kind, c, bucket, w.store, ObjectsOf(w.o, j.id), j)
    requires Inv(w, h)
    ensures Inv(w.(o := w.o.(content := c), bucket := bucket, pc := pc), h)
  {
    hide ArchivesHold, WellKept, StepOk, JobHolding, TablesNamed, Empty;
    StoredJob(w, h);
    EraseHolds(w, h, j, c, bucket);
  }

  lemma EraseIsLive(w: World, h: History)
    requires w.pc.EraseFile?
    requires Inv(w, h)
    ensures LiveStep(w)
  {
    hide ArchivesHold, Holding, Shape, Ids, StepOk;
  }

  lemma FewerFilesKept(kind: Kind, c: Content, bucket: map<string, Bytes>, key: string)
    requires WellKept(kind, c, bucket)
    ensures WellKept(kind, c, bucket - {key})
  {
    hide SingleMeta;
  }

  lemma EraseLands(w: World, h: History)
    requires w.pc.EraseFile?
    requires Inv(w, h)
    ensures Inv(Land(w), h)
  {
    hide Inv, ArchivesHold, WellKept, Covered, RestoreOk, Frozen, Ascending, FromTable, Erasing;
    EraseIsLive(w, h);
    StepKnows(w, h);
    var first := w.pc.files[0].row;
    if first.AttachmentRow? { FewerFilesKept(w.o.record.kind, w.o.content, w.bucket, first.key); }
    ErasedKept(w, h, w.pc.job, w.o.content, Land(w).bucket, Land(w).pc);
  }

  lemma PutExtends(bucket: map<string, Bytes>, m: Manifest, i: nat, key: string, bytes: Bytes)
    requires IsFile(m, i, key, bytes)
    requires bucket == FilesOf(m.objects[..i]) || bucket == FilesOf(m.objects[..i + 1])
    ensures bucket[key := bytes] == FilesOf(m.objects[..i + 1])
  {
    hide FilesOf;
    AppendNext(m.objects, i);
    assert EntryFile(m.objects[i]) == map[key := bytes];
  }

  lemma PutLandsLive(w: World, h: History)
    requires w.pc.PutFile? && LiveStep(w)
    requires Inv(w, h)
    ensures Inv(Land(w), h)
  {
    hide ArchivesHold, Covered, WellKept, Frozen, FilesOf, Written, ManifestFor;
    StepKnows(w, h);
    var j := w.o.job.value;
    PutExtends(w.bucket, ManifestFor(w.store, j).value, j.index, w.pc.key, w.pc.bytes);
  }

  lemma PutLandsAbandoned(w: World, h: History)
    requires w.pc.PutFile? && !LiveStep(w)
    requires Inv(w, h)
    ensures Inv(Land(w), h)
  {
    hide ArchivesHold, Covered, RestoreOk, Frozen;
    assert NamesFile(w.o.content, w.pc.key);
    assert WellKept(w.o.record.kind, w.o.content, Land(w).bucket);
  }

  lemma LandKept(w: World, h: History)
    requires Inv(w, h)
    ensures Inv(Land(w), h)
  {
    hide Inv;
    match w.pc {
      case EraseFile(_, _) => EraseLands(w, h);
      case PutFile(_, _, _) => if Live(w.o, w.pc.job) { PutLandsLive(w, h); } else { PutLandsAbandoned(w, h); }
      case _ =>
    }
  }

  // ---- Answers during a backup ----

  lemma ObjectRecorded(kind: Kind, c: Content, bucket: map<string, Bytes>, store: Store, objs: seq<ObjectEntry>, j: Job,
    blob: Blob, detail: Detail, cursor: int)
    requires Covered(kind, c, bucket, store, objs, j) && Due(c, AllTables(kind, c), bucket, j, blob, detail, cursor)
    requires ReadVerified(store, ObjectKey(j.id, j.index), Sha256(blob)).Some?
    ensures var entries := PutAt(objs, j.index, ObjectEntry(ObjectKey(j.id, j.index), Sha256(blob), detail));
            && |entries| == j.index + 1
            && entries[j.index] == ObjectEntry(ObjectKey(j.id, j.index), Sha256(blob), detail)
            && Covered(kind, c, bucket, store, entries, j)
  {
    hide Progress, SnapshotRows, AllTables;
    var e := ObjectEntry(ObjectKey(j.id, j.index), Sha256(blob), detail);
    var entries := PutAt(objs, j.index, e);
    assert entries[..j.index] == objs[..j.index];
    assert EntryStored(store, j.id, j.index, e);
    forall i | 0 <= i < |entries| ensures EntryStored(store, j.id, i, entries[i]) {
      if i < j.index { assert EntryStored(store, j.id, i, objs[i]); }
    }
    if j.stage == Files { assert cursor in Above(ReadyOnly(Rows(c, Attachments)), j.cursor); }
  }

  lemma RecordInto(w: World, h: History, j: Job, entries: seq<ObjectEntry>, pc: Pc)
    requires w.o.job == Some(j) && BackingUp(j.stage) && StepOf(pc, j.id)
    requires Covered(w.o.record.kind, w.o.content, w.bucket, w.store, entries, j)
    requires StepOk(pc, w.o.record.kind, w.o.content, w.bucket, w.store, entries, j)
    requires Inv(w, h)
    ensures Inv(w.(o := w.o.(objects := w.o.objects[j.id := entries]), pc := pc), h)
  {
    hide Covered, StepOk, ArchivesHold, SnapshotOf, WellKept;
  }

  lemma AnswerObjectIs(w: World, job: Job, blob: Blob, detail: Detail, cursor: int)
    requires w.pc == PutObject(job, blob, detail, cursor)
    ensures var key := ObjectKey(job.id, job.index);
            Resume(w) ==
              if ReadVerified(w.store, key, Sha256(blob)).None? then Failed(w)
              else if !Live(w.o, job) then w.(pc := Idle)
              else
                var entries := PutAt(ObjectsOf(w.o, job.id), job.index, ObjectEntry(key, Sha256(blob), detail));
                w.(o := w.o.(objects := w.o.objects[job.id := entries]),
                   pc := Recorded(Counted(job), cursor, FileToCheck(detail, blob)))
  {
    hide Failed, ReadVerified, PutAt, ObjectsOf, Live, Rows, Finish, HasManifest, HasObject;
  }

  lemma AnswerObject(w: World, h: History)
    requires w.pc.PutObject?
    requires Inv(w, h)
    ensures Inv(Resume(w), h)
  {
    hide Inv, Covered, Due, Holds, ArchivesHold, ReadVerified, AllTables, Resume, Failed, PutAt, WellKept, SnapshotOf,
         Live, ObjectsOf;
    FailedKept(w, h);
    IdleKept(w, h);
    var pc := w.pc;
    AnswerObjectIs(w, pc.job, pc.blob, pc.detail, pc.cursor);
    var key := ObjectKey(pc.job.id, pc.job.index);
    if ReadVerified(w.store, key, Sha256(pc.blob)).Some? && Live(w.o, pc.job) {
      StepKnows(w, h);
      var j := w.o.job.value;
      BackupStep(w, h);
      ObjectRecorded(w.o.record.kind, w.o.content, w.bucket, w.store, ObjectsOf(w.o, j.id), j, pc.blob, pc.detail, pc.cursor);
      RecordInto(w, h, j, PutAt(ObjectsOf(w.o, j.id), j.index, ObjectEntry(key, Sha256(pc.blob), pc.detail)), Resume(w).pc);
    }
  }

  ghost predicate BackupHeld(w: World, h: History) {
    && BackupJob(w)
    && var j := w.o.job.value;
       && Frozen(w.o.record.kind, w.o.content, w.bucket, h, j)
       && Covered(w.o.record.kind, w.o.content, w.bucket, w.store, ObjectsOf(w.o, j.id), j)
  }

  lemma BackupStep(w: World, h: History)
    requires LiveStep(w)
    requires w.pc.PutObject? || w.pc.Recorded? || w.pc.GetFile? || w.pc.PutManifest?
    requires Inv(w, h)
    ensures BackupHeld(w, h)
  {
    hide Covered, ArchivesHold, WellKept, SnapshotOf, SnapshotRows, AllTables, RestoreOk, Inv;
    StepKnows(w, h);
  }

  /** Counting the recorded object: the cursor may move past it. */
  lemma ObjectCounted(kind: Kind, c: Content, bucket: map<string, Bytes>, store: Store, objs: seq<ObjectEntry>, j: Job, cursor: int)
    requires Covered(kind, c, bucket, store, objs, j) && |objs| == j.index + 1 && WellKept(kind, c, bucket)
    requires Due(c, AllTables(kind, c), bucket, j, objs[j.index].hash.preimage, objs[j.index].detail, cursor)
    ensures Covered(kind, c, bucket, store, objs, j.(index := j.index + 1, cursor := cursor))
    ensures j.cursor < cursor
  {
    hide TablesDone, AllTables, AllTablesDone, FilesDone, WellKept, SnapshotRows, AllStored, KeptTable, Rows,
         SingleMeta;
    MetaOf(kind, c, bucket);
    var done, e := objs[..j.index], objs[j.index];
    assert objs[..j.index + 1] == objs == done + [e];
    if j.stage == Snapshots {
      assert Due(c, AllTables(kind, c), map[], j, e.hash.preimage, e.detail, cursor);
      ChunkRecorded(kind, c, done, j, e, cursor);
      ChunkAdvances(c, AllTables(kind, c)[j.table], j.cursor);
    } else {
      FileRecorded(c, AllTables(kind, c), bucket, done, j, e, cursor);
    }
  }

  lemma AnswerRecorded(w: World, h: History)
    requires w.pc.Recorded?
    requires Inv(w, h)
    ensures Inv(Resume(w), h)
  {
    hide Inv, Covered, Due, ArchivesHold, AllTables, WellKept, Saved, SnapshotOf, RestoreOk, Failed;
    FailedKept(w, h);
    IdleKept(w, h);
    if Live(w.o, w.pc.job) {
      StepKnows(w, h);
      BackupStep(w, h);
      var j := w.o.job.value;
      ObjectCounted(w.o.record.kind, w.o.content, w.bucket, w.store, ObjectsOf(w.o, j.id), j, w.pc.cursor);
      SavedSame(w, h, w.pc.job.(cursor := w.pc.cursor));
    } else {
      SavedIdle(w, w.pc.job.(cursor := w.pc.cursor));
    }
  }

  lemma SavedIdle(w: World, job: Job)
    requires !Live(w.o, job)
    ensures Saved(w, job) == w.(pc := Idle)
  {
  }

  lemma AnswerFile(w: World, h: History)
    requires w.pc.GetFile?
    requires Inv(w, h)
    ensures Inv(Resume(w), h)
  {
    hide Inv, ArchivesHold, WellKept, RestoreOk, Covered, Failed, Live;
    FailedKept(w, h);
    if w.pc.key in w.bucket && |w.bucket[w.pc.key]| == w.pc.size {
      if Live(w.o, w.pc.job) {
        StepKnows(w, h);
        WaitKept(w, h, Resume(w).pc);
      } else {
        AbandonedWait(w, h, w.pc.job.id, Resume(w).pc);
      }
    }
  }

  lemma AbandonedWait(w: World, h: History, id: nat, pc: Pc)
    requires StepOf(w.pc, id) && StepOf(pc, id) && !LiveStep(w)
    requires !pc.EraseFile? && !pc.FileErased? && !pc.PutFile?
    requires Inv(w, h)
    ensures Inv(w.(pc := pc), h)
  {
    hide Holding, ArchivesHold;
  }

  /** The manifest is in the store: with it the backup is complete and verified. */
  lemma ManifestCompletes(kind: Kind, c: Content, bucket: map<string, Bytes>, store: Store, objs: seq<ObjectEntry>, j: Job)
    requires WellKept(kind, c, bucket) && Covered(kind, c, bucket, store, objs, j) && j.stage == WriteManifest
    requires var m := Manifest(j.id, j.source, AllTables(kind, c), objs);
             ReadVerified(store, ManifestKey(j.id), Sha256(ManifestBlob(m))).Some?
    ensures var m := Manifest(j.id, j.source, AllTables(kind, c), objs);
            ArchiveHolds(store, Receipt(j.id, ManifestKey(j.id), Sha256(ManifestBlob(m)), |objs|), SnapshotOf(c, bucket))
  {
    hide Listing, KeptTable, ReadyFiles;
    assert objs[..j.index] == objs;
  }

  function ReceiptOf(job: Job, m: Manifest): Receipt {
    Receipt(job.id, ManifestKey(job.id), Sha256(ManifestBlob(m)), |m.objects|)
  }

  /** What answering the manifest write does, before the job goes on or finishes. */
  function Receipted(w: World, job: Job, m: Manifest): World {
    var receipt := ReceiptOf(job, m);
    var o := w.o.(archives := w.o.archives[job.id := receipt]);
    w.(o := Save(o, o.record.(latestArchive := Some(receipt)), 2, w.now))
  }

  lemma AnswerManifestIs(w: World, j: Job, m: Manifest)
    requires w.pc == PutManifest(j, m) && LiveStep(w)
    requires ManifestStored(w)
    ensures var w' := Receipted(w, j, m);
            var j' := j.(receipt := Some(ReceiptOf(j, m)));
            Resume(w) == if j.action == Archive then Finish(w', j', Active, false) else Saved(w', j'.(stage := Erase))
  {
    hide Finish, Saved, ReadVerified;
  }

  lemma ReceiptedHolds(kind: Kind, archives: map<nat, Receipt>, store: Store, snaps: map<nat, Snapshot>, r: Receipt)
    requires r.archive in snaps && ArchiveHolds(store, r, snaps[r.archive])
    requires ArchivesHold(kind, archives, store, snaps)
    ensures ArchivesHold(kind, archives[r.archive := r], store, snaps)
  {
    hide ArchiveHolds, WellKept;
  }

  lemma ReceiptedKept(w: World, h: History, j: Job, m: Manifest)
    requires w.pc == PutManifest(j, m) && LiveStep(w)
    requires ManifestStored(w)
    requires Inv(w, h)
    ensures var w' := Receipted(w, j, m);
            && Inv(w', h) && w.o.job == Some(j) && w'.o.job == w.o.job && w'.bucket == w.bucket && w'.o.content == w.o.content
            && w'.o.record.kind == w.o.record.kind
            && WellKept(w.o.record.kind, w.o.content, w.bucket)
            && Frozen(w.o.record.kind, w.o.content, w.bucket, h, j)
  {
    hide Covered, ArchiveHolds, ArchivesHold, WellKept, SnapshotOf, AllTables, ReadVerified, RestoreOk;
    StepKnows(w, h);
    BackupStep(w, h);
    ManifestCompletes(w.o.record.kind, w.o.content, w.bucket, w.store, ObjectsOf(w.o, j.id), j);
    ReceiptedHolds(w.o.record.kind, w.o.archives, w.store, h.snaps, ReceiptOf(j, m));
  }

  lemma AnswerManifest(w: World, h: History)
    requires w.pc.PutManifest?
    requires Inv(w, h)
    ensures Inv(Resume(w), h)
  {
    hide Inv, Finish, Saved, ReadVerified, Covered, WellKept, SnapshotOf, RestoreOk, ArchivesHold, AllTables, Due;
    FailedKept(w, h);
    IdleKept(w, h);
    if ManifestStored(w) && LiveStep(w) {
      var j, m := w.pc.job, w.pc.manifest;
      AnswerManifestIs(w, j, m);
      ReceiptedKept(w, h, j, m);
      StepKnows(w, h);
      var w' := Receipted(w, j, m);
      var j' := j.(receipt := Some(ReceiptOf(j, m)));
      if j.action == Archive {
        FinishKept(w', h, j', Active, false);
      } else {
        SavedSame(w', h, j'.(stage := Erase));
      }
    }
  }

  // ---- Answers during an erase ----

  lemma RowErased(kind: Kind, c: Content, bucket: map<string, Bytes>, files: seq<Listed<Row>>)
    requires WellKept(kind, c, bucket) && files != [] && Ascending(files, -1) && FromTable(Rows(c, Attachments), files)
    requires files[0].row.AttachmentRow? ==> files[0].row.key !in bucket
    ensures var c' := c[Attachments := Rows(c, Attachments) - {files[0].rowid}];
            && WellKept(kind, c', bucket)
            && Ascending(files[1..], -1) && FromTable(Rows(c', Attachments), files[1..])
  {
    var m := Rows(c, Attachments);
    var c' := c[Attachments := m - {files[0].rowid}];
    assert Attachments in c;
    forall key | key in bucket
      ensures exists k :: k in Rows(c', Attachments) && Rows(c', Attachments)[k].AttachmentRow? && Rows(c', Attachments)[k].key == key
    {
      var k :| k in m && m[k].AttachmentRow? && m[k].key == key;
      assert k in Rows(c', Attachments);
    }
    assert Rows(c', Meta) == Rows(c, Meta);
    forall i | 0 <= i < |files[1..]|
      ensures files[1..][i].rowid in Rows(c', Attachments) && files[1..][i].row == Rows(c', Attachments)[files[1..][i].rowid]
    {
      assert files[1..][i] == files[i + 1];
    }
  }

  function WithoutRow(c: Content, rowid: nat): Content { c[Attachments := Rows(c, Attachments) - {rowid}] }

  /** The row of an erased file goes, and the step turns to the next file or ends. */
  lemma ErasedIs(w: World, j: Job, first: Listed<Row>, rest: seq<Listed<Row>>)
    requires w.pc == FileErased(j, [first] + rest) && LiveStep(w)
    ensures var w1 := w.(o := w.o.(content := WithoutRow(w.o.content, first.rowid)));
            Resume(w) == if rest != [] then w1.(pc := EraseFile(j, rest)) else Saved(w1, j)
  {
    hide Saved, Rows;
    assert ([first] + rest)[1..] == rest;
  }

  lemma AnswerErased(w: World, h: History)
    requires w.pc.FileErased?
    requires Inv(w, h)
    ensures Inv(Resume(w), h)
  {
    hide Inv, ArchivesHold, Covered, WellKept, RestoreOk, Frozen, Ascending, FromTable, Saved, Rows, Live;
    IdleKept(w, h);
    if w.pc.files != [] && Live(w.o, w.pc.job) {
      StepKnows(w, h);
      var files := w.pc.files;
      var c := w.o.content[Attachments := Rows(w.o.content, Attachments) - {files[0].rowid}];
      RowErased(w.o.record.kind, w.o.content, w.bucket, files);
      if |files| > 1 {
        ErasedKept(w, h, w.pc.job, c, w.bucket, EraseFile(w.pc.job, files[1..]));
      } else {
        SavedKept(w, h, c, w.pc.job);
      }
    }
  }

  // ---- Answers during a restore ----

  /** A restore works from a complete verified archive of what its job froze. */
  ghost predicate RestoreHeld(w: World, h: History) {
    && w.o.job.Some?
    && var j := w.o.job.value;
       && RestoringStage(j.stage) && LiveStep(w) && j == w.pc.job && HasReceipt(w.o.archives, j)
       && RestoreOk(w.o.record.kind, w.o.content, w.bucket, w.store, w.o.archives, j)
       && var id := j.receipt.value.archive;
          && id in w.o.archives && id in h.snaps && ArchiveHolds(w.store, w.o.archives[id], h.snaps[id])
          && w.o.archives[id] == j.receipt.value
          && WellKept(w.o.record.kind, h.snaps[id].content, h.snaps[id].files)
  }

  lemma RestoreStep(w: World, h: History)
    requires LiveStep(w)
    requires w.pc.NeedManifest? || w.pc.NeedObject? || w.pc.NeedFile? || w.pc.PutFile? || w.pc.FilePut?
    requires Inv(w, h)
    ensures RestoreHeld(w, h)
  {
    hide ArchiveHolds, WellKept, SnapshotOf, Covered, Rebuilt, ManifestFor, Frozen, Inv;
    StepKnows(w, h);
  }

  lemma RoomIsEmpty(kind: Kind, c: Content, m: Manifest, snap: Snapshot, bucket: map<string, Bytes>)
    requires TablesNamed(kind, c) && WellKept(kind, snap.content, bucket)
    requires forall t :: t in m.tables <==> t in snap.content
    ensures TablesNamed(kind, RoomFor(c, m.tables)) && Written(RoomFor(c, m.tables), [])
  {
    hide WellKept;
  }

  lemma ManifestIs(store: Store, archives: map<nat, Receipt>, snap: Snapshot, j: Job)
    requires HasReceipt(archives, j) && ArchiveHolds(store, j.receipt.value, snap)
    ensures ManifestFor(store, j).Some?
    ensures var m := ManifestFor(store, j).value;
            && AllStored(store, m.archive, m.objects) && TablesFirst(m.objects) && Describes(m.objects, snap)
            && (forall t :: t in m.tables <==> t in snap.content)
  {
    hide AllStored, TablesFirst, Describes;
  }

  lemma WriteBegins(w: World, h: History, j: Job, m: Manifest)
    requires w.pc == NeedManifest(j) && LiveStep(w) && j.stage == RestoreVerify
    requires ManifestFor(w.store, j) == Some(m)
    requires Inv(w, h)
    ensures Inv(Saved(w.(o := w.o.(content := RoomFor(w.o.content, m.tables))), ToWrite(j)), h)
  {
    hide Inv, Saved, ArchiveHolds, Covered, WellKept, RoomFor, Written, ManifestFor, Describes, AllStored,
         TablesFirst, LiveStep, ArchivesHold;
    StepKnows(w, h);
    RestoreStep(w, h);
    var snap := h.snaps[j.receipt.value.archive];
    ManifestIs(w.store, w.o.archives, snap, j);
    RoomIsEmpty(w.o.record.kind, w.o.content, m, snap, snap.files);
    var j' := ToWrite(j);
    SameManifest(w.store, j, j');
    assert m.objects[..0] == [];
    SavedKept(w, h, RoomFor(w.o.content, m.tables), j');
  }

  lemma SameManifest(store: Store, j: Job, j': Job)
    requires j.receipt == j'.receipt
    ensures ManifestFor(store, j) == ManifestFor(store, j')
  {
  }

  /** A restore step that moves the job on without touching live content. */
  lemma RestoreMovesOn(w: World, h: History, j: Job, j': Job, m: Manifest)
    requires w.o.job == Some(j) && RestoringStage(j.stage)
    requires j' == j.(stage := j'.stage, index := j'.index) && RestoringStage(j'.stage)
    requires RestoreOk(w.o.record.kind, w.o.content, w.bucket, w.store, w.o.archives, j)
    requires ManifestFor(w.store, j') == Some(m) && Rebuilt(w.o.content, w.bucket, m.objects, j')
    requires Inv(w, h)
    ensures Inv(Saved(w, j'), h)
  {
    hide Inv, Saved, Rebuilt, ManifestFor, Covered, Frozen, ArchivesHold, WellKept;
    StoredJob(w, h);
    SavedSame(w, h, j');
  }

  lemma HasManifestIs(w: World, j: Job, m: Manifest)
    requires w.pc == NeedManifest(j) && LiveStep(w) && ManifestFor(w.store, j) == Some(m)
    ensures Resume(w) == HasManifest(w, j, m)
  {
    hide HasManifest, ManifestFor;
  }

  lemma CheckBegins(c: Content, bucket: map<string, Bytes>, objects: seq<ObjectEntry>, j: Job)
    requires Rebuilt(c, bucket, objects, j) && j.stage == RestoreWrite && j.index == |objects|
    ensures Rebuilt(c, bucket, objects, ToCheck(j))
  {
    assert objects[..|objects|] == objects;
  }

  lemma AnswerManifestRead(w: World, h: History)
    requires w.pc.NeedManifest?
    requires Inv(w, h)
    ensures Inv(Resume(w), h)
  {
    hide Inv, Saved, Failed, Finish, RoomFor, ManifestFor, Covered, Frozen, ArchivesHold, WellKept, ArchiveHolds, Written, FilesOf;
    FailedKept(w, h);
    IdleKept(w, h);
    var m := ManifestFor(w.store, w.pc.job);
    if m.Some? && Live(w.o, w.pc.job) {
      StepKnows(w, h);
      RestoreStep(w, h);
      var j := w.pc.job;
      HasManifestIs(w, j, m.value);
      var more := j.index < |m.value.objects|;
      if more {
        WaitKept(w, h, Resume(w).pc);
      } else if j.stage == RestoreVerify {
        WriteBegins(w, h, j, m.value);
      } else if j.stage == RestoreWrite {
        CheckBegins(w.o.content, w.bucket, m.value.objects, j);
        SameManifest(w.store, j, ToCheck(j));
        RestoreMovesOn(w, h, j, ToCheck(j), m.value);
      } else {
        RestoreFilesNamed(w, h, j);
        FinishKept(w, h, j.(source := m.value.resource), Active, false);
      }
    }
  }

  // Object reads

  lemma NeedObjectIs(w: World, j: Job, m: Manifest, e: ObjectEntry)
    requires w.pc == NeedObject(j, m) && Lists(m, j.index, e)
    ensures Resume(w) == if ReadVerified(w.store, e.key, e.hash).None? then Failed(w) else HasObject(w, j, e, e.hash.preimage)
  {
    hide HasObject, Failed, Rows, Finish, HasManifest, Live;
  }

  lemma NeedObjectShort(w: World, j: Job, m: Manifest)
    requires w.pc == NeedObject(j, m) && |m.objects| <= j.index
    ensures Resume(w) == Failed(w)
  {
    hide Failed, ReadVerified, Rows, Finish, HasManifest, HasObject, Live, ManifestFor, ObjectsOf, PutAt, Save, Saved;
  }

  lemma NoNewFile(files: map<string, Bytes>)
    ensures files + map[] == files
  {
  }

  lemma RowsWritten(kind: Kind, c: Content, bucket: map<string, Bytes>, objects: seq<ObjectEntry>, j: Job)
    requires Rebuilt(c, bucket, objects, j) && j.stage == RestoreWrite && j.index < |objects|
    requires objects[j.index].detail.TableDetail? && objects[j.index].detail.table in c && TablesNamed(kind, c)
    ensures Rebuilt(WriteEntry(c, objects[j.index]), bucket, objects, Counted(j))
    ensures TablesNamed(kind, WriteEntry(c, objects[j.index]))
  {
    hide RowsOf, InsertAll, EntryRows, FilesOf;
    WriteNext(c, objects, j.index);
    AppendNext(objects, j.index);
    assert EntryFile(objects[j.index]) == map[];
    NoNewFile(FilesOf(objects[..j.index]));
  }

  predicate GoesInto(e: ObjectEntry, c: Content) { e.detail.TableDetail? && e.detail.table in c }

  lemma RowsBack(w: World, h: History, j: Job, m: Manifest, e: ObjectEntry)
    requires w.pc == NeedObject(j, m) && LiveStep(w) && j.stage == RestoreWrite
    requires Lists(m, j.index, e) && GoesInto(e, w.o.content)
    requires Inv(w, h)
    ensures Inv(Saved(w.(o := w.o.(content := WriteEntry(w.o.content, e))), Counted(j)), h)
  {
    hide Inv, Saved, ManifestFor, Covered, Frozen, ArchivesHold, WellKept, ArchiveHolds, Rebuilt, WriteEntry;
    StepKnows(w, h);
    RestoreStep(w, h);
    RowsWritten(w.o.record.kind, w.o.content, w.bucket, m.objects, j);
    SameManifest(w.store, j, Counted(j));
    SavedKept(w, h, WriteEntry(w.o.content, e), Counted(j));
  }

  lemma ObjectVerified(w: World, h: History, j: Job, m: Manifest)
    requires w.pc == NeedObject(j, m) || w.pc == NeedFile(j, m)
    requires LiveStep(w) && (j.stage == RestoreVerify || j.stage == RestoreCheck)
    requires Inv(w, h)
    ensures Inv(Saved(w, Counted(j)), h)
  {
    hide Inv, Saved, ManifestFor, Covered, Frozen, ArchivesHold, WellKept, ArchiveHolds, Written, FilesOf, LiveStep;
    StepKnows(w, h);
    RestoreStep(w, h);
    SameManifest(w.store, j, Counted(j));
    RestoreMovesOn(w, h, j, Counted(j), m);
  }

  lemma HasObjectIs(w: World, job: Job, e: ObjectEntry, blob: Blob)
    ensures job.stage == RestoreVerify ==> HasObject(w, job, e, blob) == Saved(w, Counted(job))
    ensures job.stage == RestoreCheck ==>
              HasObject(w, job, e, blob) == Saved(w, Counted(job)) || HasObject(w, job, e, blob) == Failed(w)
    ensures job.stage == RestoreWrite && Live(w.o, job) ==>
              if e.detail.TableDetail? then
                || HasObject(w, job, e, blob) == Failed(w)
                || (e.detail.table in w.o.content
                    && HasObject(w, job, e, blob) == Saved(w.(o := w.o.(content := WriteEntry(w.o.content, e))), Counted(job)))
              else if blob.FileBlob? then HasObject(w, job, e, blob) == w.(pc := PutFile(job, e.detail.file, blob.bytes))
              else HasObject(w, job, e, blob) == Failed(w)
    ensures !Live(w.o, job) ==> HasObject(w, job, e, blob) == w.(pc := Idle) || HasObject(w, job, e, blob) == Failed(w)
    ensures !RestoringStage(job.stage) ==> HasObject(w, job, e, blob) == Failed(w)
  {
    hide Failed, WriteEntry, Between;
  }

  lemma AnswerObjectRead(w: World, h: History)
    requires w.pc.NeedObject?
    requires Inv(w, h)
    ensures Inv(Resume(w), h)
  {
    hide Inv, Saved, Failed, Resume, HasObject, ManifestFor, Covered, Frozen, ArchivesHold, WellKept, ReadVerified,
         WriteEntry, RestoreOk, Live;
    FailedKept(w, h);
    IdleKept(w, h);
    var j, m := w.pc.job, w.pc.manifest;
    if |m.objects| <= j.index {
      NeedObjectShort(w, j, m);
    } else {
      var e := m.objects[j.index];
      NeedObjectIs(w, j, m, e);
      HasObjectIs(w, j, e, e.hash.preimage);
      if ReadVerified(w.store, e.key, e.hash).Some? && Live(w.o, j) {
        StepKnows(w, h);
        if j.stage == RestoreWrite {
          if e.detail.TableDetail? {
            if e.detail.table in w.o.content { RowsBack(w, h, j, m, e); }
          } else if e.hash.preimage.FileBlob? {
            WaitKept(w, h, PutFile(j, e.detail.file, e.hash.preimage.bytes));
          }
        } else {
          ObjectVerified(w, h, j, m);
        }
      }
    }
  }

  lemma AnswerFileBack(w: World, h: History)
    requires w.pc.NeedFile?
    requires Inv(w, h)
    ensures Inv(Resume(w), h)
  {
    hide Inv, Saved, Failed, ManifestFor, Covered, Frozen, ArchivesHold, WellKept, RestoreOk;
    FailedKept(w, h);
    IdleKept(w, h);
    if Live(w.o, w.pc.job) {
      StepKnows(w, h);
      ObjectVerified(w, h, w.pc.job, w.pc.manifest);
    } else {
      SavedIdle(w, Counted(w.pc.job));
    }
  }

  lemma FileCounted(c: Content, bucket: map<string, Bytes>, objects: seq<ObjectEntry>, j: Job)
    requires Rebuilt(c, bucket, objects, j) && j.stage == RestoreWrite && j.index < |objects|
    requires objects[j.index].detail.FileDetail? && bucket == FilesOf(objects[..j.index + 1])
    ensures Rebuilt(c, bucket, objects, Counted(j))
  {
    hide FilesOf;
    AppendNext(objects, j.index);
    forall t ensures RowsOf(objects[..j.index + 1], t) == RowsOf(objects[..j.index], t) {
      assert EntryRows(objects[j.index], t) == [];
    }
  }

  lemma AnswerFilePut(w: World, h: History)
    requires w.pc.FilePut?
    requires Inv(w, h)
    ensures Inv(Resume(w), h)
  {
    hide Inv, Saved, Failed, ManifestFor, Covered, Frozen, ArchivesHold, WellKept, Rebuilt, ArchiveHolds, FilesOf;
    IdleKept(w, h);
    var j := w.pc.job;
    if Live(w.o, j) {
      StepKnows(w, h);
      RestoreStep(w, h);
      FileCounted(w.o.content, w.bucket, ManifestFor(w.store, j).value.objects, j);
      SameManifest(w.store, j, Counted(j));
      RestoreMovesOn(w, h, j, Counted(j), ManifestFor(w.store, j).value);
    } else {
      SavedIdle(w, Counted(j));
    }
  }

  /** Nothing waits for an answer here. */
  lemma ResumeStays(w: World)
    requires w.pc.Idle? || w.pc.EraseFile? || w.pc.PutFile?
    ensures Resume(w) == w
  {
    hide Failed, Finish, HasManifest, HasObject, ManifestFor, ReadVerified, PutAt, Save, Saved, Rows, ObjectsOf, Live;
  }

  lemma ResumeKept(w: World, h: History)
    requires Inv(w, h)
    ensures Inv(Resume(w), h)
  {
    hide *;
    match w.pc {
      case PutObject(_, _, _, _) => AnswerObject(w, h);
      case Recorded(_, _, _) => AnswerRecorded(w, h);
      case GetFile(_, _, _, _) => AnswerFile(w, h);
      case PutManifest(_, _) => AnswerManifest(w, h);
      case FileErased(_, _) => AnswerErased(w, h);
      case NeedManifest(_) => AnswerManifestRead(w, h);
      case NeedObject(_, _) => AnswerObjectRead(w, h);
      case NeedFile(_, _) => AnswerFileBack(w, h);
      case FilePut(_) => AnswerFilePut(w, h);
      case _ => ResumeStays(w);
    }
  }
}
