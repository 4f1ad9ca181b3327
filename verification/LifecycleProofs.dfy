/** Every event keeps the lifecycle invariant. */
module LifecycleProofs {
  import opened Options
  import opened Tables
  import opened Backup
  import opened Lifecycle
  import opened LifecycleInvariant

  // ---- Small facts ----

  ghost predicate Distinct(s: seq<TableName>) {
    forall i, j | 0 <= i < j < |s| :: s[i] != s[j]
  }

  lemma {:induction false} ExistingDistinct(names: seq<TableName>, c: Content)
    requires Distinct(names)
    ensures Distinct(Existing(names, c))
    decreases |names|
  {
    if names == [] {
    } else {
      var rest := Existing(names[1..], c);
      assert Distinct(names[1..]) by {
        forall i, j | 0 <= i < j < |names[1..]| ensures names[1..][i] != names[1..][j] {
          assert names[i + 1] != names[j + 1];
        }
      }
      ExistingDistinct(names[1..], c);
      assert names[0] !in names[1..];
      var all := Existing(names, c);
      if names[0] in c {
        assert all == [names[0]] + rest;
        forall i, j | 0 <= i < j < |all| ensures all[i] != all[j] {
          assert all[j] == rest[j - 1] && rest[j - 1] in rest;
          if i > 0 { assert all[i] == rest[i - 1]; }
        }
      } else {
        assert all == rest;
      }
    }
  }

  lemma AllTablesDistinct(kind: Kind, c: Content)
    ensures Distinct(AllTables(kind, c))
  {
    hide Existing;
    var names := TableNames(kind);
    assert Distinct(names) by {
      if kind == Wiki {
        assert names[0] == Meta && names[1] == Pages && names[2] == Revisions && names[3] == Comments;
        assert names[4] == Changes && names[5] == Attachments && names[6] == LinkedSpaces;
        assert names[7] == Chunks && names[8] == SearchIndex && |names| == 9;
      }
    }
    ExistingDistinct(names, c);
  }

  lemma ReadyFilesNamed(kind: Kind, c: Content, bucket: map<string, Bytes>)
    requires WellKept(kind, c, bucket)
    ensures WellKept(kind, Kept(c), ReadyFiles(c, bucket))
  {
    var kept, files := Kept(c), ReadyFiles(c, bucket);
    var ready := ReadyOnly(Rows(c, Attachments));
    assert forall k | k in ready :: Attachments in c;
    assert Rows(kept, Attachments) == ready;
    forall key | key in files
      ensures exists k :: k in Rows(kept, Attachments) && Rows(kept, Attachments)[k].AttachmentRow? && Rows(kept, Attachments)[k].key == key
    {
      var k :| k in ready && ready[k].key == key;
      assert k in Rows(kept, Attachments);
    }
  }

  /** A change of the record that keeps kind and state, and nothing else. */
  lemma RecordKept(w: World, h: History, r: Record, dirty: nat)
    requires r.kind == w.o.record.kind && r.state == w.o.record.state
    requires Inv(w, h)
    ensures Inv(w.(o := Save(w.o, r, dirty, w.now)), h)
  {
    hide Max;
  }

  lemma IdleKept(w: World, h: History)
    requires Inv(w, h)
    ensures Inv(w.(pc := Idle), h)
  {
    hide ArchivesHold, Holding;
  }

  lemma FailedKept(w: World, h: History)
    requires Inv(w, h)
    ensures Inv(Failed(w), h)
  {
    hide Live, Inv, Max;
    if !w.pc.Idle? && Live(w.o, w.pc.job) {
      var r := w.o.record.(attempts := w.o.record.attempts + 1);
      RecordKept(w, h, r, 2);
      IdleKept(w.(o := Save(w.o, r, 2, w.now)), h);
    } else {
      IdleKept(w, h);
    }
  }

  lemma SnapshotWellKept(kind: Kind, c: Content, bucket: map<string, Bytes>)
    requires WellKept(kind, c, bucket)
    ensures WellKept(kind, SnapshotOf(c, bucket).content, SnapshotOf(c, bucket).files)
  {
    hide WellKept;
    ReadyFilesNamed(kind, c, bucket);
  }

  // ---- begin, tick, requests ----

  /** A waiting step whose job is replaced, seen against the new job. */
  lemma StepAbandoned(pc: Pc, kind: Kind, job: Option<Job>, job': Option<Job>, c: Content, bucket: map<string, Bytes>,
    store: Store, objects: map<nat, seq<ObjectEntry>>, objects': map<nat, seq<ObjectEntry>>)
    requires Running(pc, kind, job, c, bucket, store, objects)
    requires job.Some? ==> job.value.stage != Erase
    requires job'.Some? && !pc.Idle? ==> job'.value.id != pc.job.id
    requires pc.PutFile? && job.Some? && job.value.id == pc.job.id ==>
               job'.Some? && job'.value.stage == Erase && NamesFile(c, pc.key)
    ensures Running(pc, kind, job', c, bucket, store, objects')
  {
    hide NamesFile;
  }

  lemma NoObjects(w: World, h: History)
    requires Ids(w, h)
    ensures w.o.job.None? ==> w.o.objects == map[]
    ensures w.o.job.Some? ==> w.o.objects - {w.o.job.value.id} == map[]
  {
    if w.o.job.None? { assert forall id | id in w.o.objects :: false; }
  }

  lemma FreshBackup(kind: Kind, c: Content, bucket: map<string, Bytes>, store: Store, j: Job)
    requires j.stage == Snapshots && j.index == 0 && j.table == 0 && j.cursor == -1
    ensures Covered(kind, c, bucket, store, [], j)
  {
    hide AllTables;
    assert TablesDone(c, AllTables(kind, c), [], 0, -1);
  }

  /** The three ways a job can begin. */
  ghost predicate MayBegin(o: Object, action: Action, receipt: Option<Receipt>) {
    && CanBegin(o, action)
    && (action == Restore ==> receipt.Some? && receipt.value.archive in o.archives && o.archives[receipt.value.archive] == receipt.value)
  }

  lemma BeginBackup(kind: Kind, c: Content, bucket: map<string, Bytes>, store: Store, archives: map<nat, Receipt>,
    h: History, h': History, j: Job)
    requires WellKept(kind, c, bucket) && j.id !in h.snaps
    requires j.stage == Snapshots && j.index == 0 && j.table == 0 && j.cursor == -1
    requires h' == History(c, bucket, h.snaps[j.id := SnapshotOf(c, bucket)])
    requires ArchivesHold(kind, archives, store, h.snaps)
    ensures JobHolding(kind, c, bucket, store, map[], archives, h', j)
    ensures ArchivesHold(kind, archives, store, h'.snaps)
  {
    hide Covered, ArchiveHolds, WellKept, SnapshotOf, RestoreOk, Erasing;
    assert WellKept(kind, SnapshotOf(c, bucket).content, SnapshotOf(c, bucket).files) by { SnapshotWellKept(kind, c, bucket); }
    FreshBackup(kind, c, bucket, store, j);
  }

  lemma BeginRestore(kind: Kind, c: Content, bucket: map<string, Bytes>, store: Store, archives: map<nat, Receipt>,
    h: History, j: Job)
    requires Empty(c) && bucket == map[] && TablesNamed(kind, c)
    requires j.stage == RestoreVerify && j.index == 0 && HasReceipt(archives, j)
    requires ArchivesHold(kind, archives, store, h.snaps)
    ensures JobHolding(kind, c, bucket, store, map[], archives, h, j)
  {
    hide Empty;
    assert ArchiveHolds(store, archives[j.receipt.value.archive], h.snaps[j.receipt.value.archive]);
  }

  /** What a `begin` that is accepted does to each part of the world. */
  lemma BeginParts(w: World, action: Action, reason: Reason, receipt: Option<Receipt>)
    requires CanBegin(w.o, action)
    ensures var w' := Begin(w, action, reason, receipt);
            && w'.pc == w.pc && w'.bucket == w.bucket && w'.store == w.store && w'.nextId == w.nextId + 1
            && w'.o.content == w.o.content && w'.o.archives == w.o.archives && w'.o.objects == w.o.objects
            && w'.o.record.kind == w.o.record.kind && w'.o.record.state == BusyState(action, reason)
            && w'.o.job == Some(NewJob(w, action, receipt))
  {
  }

  lemma BeginHolds(w: World, h: History, action: Action, reason: Reason, receipt: Option<Receipt>)
    requires MayBegin(w.o, action, receipt)
    requires Inv(w, h)
    ensures var w' := Begin(w, action, reason, receipt);
            var h' := Remember(h, w, w');
            && (forall id | id in h'.snaps :: id <= w.nextId)
            && ArchivesHold(w.o.record.kind, w.o.archives, w.store, h'.snaps)
            && JobHolding(w.o.record.kind, w.o.content, w.bucket, w.store, map[], w.o.archives, h', NewJob(w, action, receipt))
  {
    hide Running, SnapshotOf, Begin;
    BeginParts(w, action, reason, receipt);
    var w' := Begin(w, action, reason, receipt);
    var h' := Remember(h, w, w');
    var j := w'.o.job.value;
    if j.stage == Snapshots {
      hide WellKept, ArchivesHold, JobHolding;
      BeginBackup(w.o.record.kind, w.o.content, w.bucket, w.store, w.o.archives, h, h', j);
    } else if j.stage == RestoreVerify {
      hide ArchivesHold, JobHolding;
      BeginRestore(w.o.record.kind, w.o.content, w.bucket, w.store, w.o.archives, h, j);
    }
  }

  lemma BeginAccepted(w: World, h: History, action: Action, reason: Reason, receipt: Option<Receipt>)
    requires MayBegin(w.o, action, receipt)
    requires reason == Ttl ==> action == Delete || action == ArchiveDelete
    requires Inv(w, h)
    ensures var w' := Begin(w, action, reason, receipt); Inv(w', Remember(h, w, w'))
  {
    hide JobHolding, ArchivesHold, WellKept, Running, Begin, Empty, Remember;
    BeginParts(w, action, reason, receipt);
    var w' := Begin(w, action, reason, receipt);
    BeginHolds(w, h, action, reason, receipt);
    NoObjects(w, h);
    StepAbandoned(w.pc, w.o.record.kind, None, w'.o.job, w.o.content, w.bucket, w.store, w.o.objects, w'.o.objects);
    assert Shape(w'.o);
    assert Holding(w'.o.record.kind, w'.o.record.state, w'.o.job, w'.o.content, w'.bucket, w'.store, w'.o.objects,
        w'.o.archives, Remember(h, w, w'));
  }

  lemma NothingBegan(w: World, h: History, w': World)
    requires Ids(w, h) && w'.o.job == w.o.job
    ensures Remember(h, w, w') == h
  {
    hide SnapshotOf;
  }

  lemma BeginKept(w: World, h: History, action: Action, reason: Reason, receipt: Option<Receipt>)
    requires reason == Ttl ==> action == Delete || action == ArchiveDelete
    requires CanBegin(w.o, action) ==> MayBegin(w.o, action, receipt)
    requires Inv(w, h)
    ensures var w' := Begin(w, action, reason, receipt); Inv(w', Remember(h, w, w'))
  {
    hide Shape, Holding, ArchivesHold, Running, Ids, Remember;
    if CanBegin(w.o, action) {
      BeginAccepted(w, h, action, reason, receipt);
    } else {
      NothingBegan(w, h, w);
    }
  }

  lemma TickKept(w: World, h: History)
    requires Inv(w, h)
    ensures Inv(Tick(w), Remember(h, w, Tick(w)))
  {
    hide Begin, CanBegin, Overdue;
    if Overdue(w.o.record, w.now) {
      BeginKept(w, h, if w.o.record.policy.archiveOnTtl then ArchiveDelete else Delete, Ttl, None);
    }
  }

  lemma MutateKept(w: World, h: History, content: Content, bucket: map<string, Bytes>)
    requires WellKept(w.o.record.kind, content, bucket)
    requires Inv(w, h)
    ensures Inv(Mutate(w, content, bucket), h)
  {
  }

  // ---- cancel ----

  lemma {:induction false} FilesOnlyFromFiles(objects: seq<ObjectEntry>)
    requires NoFiles(objects)
    ensures FilesOf(objects) == map[]
  {
    if objects != [] { FilesOnlyFromFiles(objects[..|objects| - 1]); }
  }

  lemma {:induction false} RowsStop(objects: seq<ObjectEntry>, k: nat)
    requires k <= |objects| && forall i | k <= i < |objects| :: objects[i].detail.FileDetail?
    ensures forall t :: RowsOf(objects[..k], t) == RowsOf(objects, t)
    decreases |objects|
  {
    if k == |objects| {
      assert objects[..k] == objects;
    } else {
      var init := objects[..|objects| - 1];
      RowsStop(init, k);
      assert init[..k] == objects[..k];
    }
  }

  lemma {:induction false} FilesGrow(objects: seq<ObjectEntry>, k: nat)
    requires k <= |objects|
    ensures forall key | key in FilesOf(objects[..k]) :: key in FilesOf(objects)
    decreases |objects|
  {
    if k == |objects| {
      assert objects[..k] == objects;
    } else {
      var init := objects[..|objects| - 1];
      FilesGrow(init, k);
      assert init[..k] == objects[..k];
    }
  }

  lemma {:induction false} RowsPrefix(objects: seq<ObjectEntry>, k: nat, t: TableName)
    requires k <= |objects|
    ensures |RowsOf(objects[..k], t)| <= |RowsOf(objects, t)|
    ensures RowsOf(objects[..k], t) == RowsOf(objects, t)[..|RowsOf(objects[..k], t)|]
    decreases |objects|
  {
    if k == |objects| {
      assert objects[..k] == objects;
    } else {
      var init := objects[..|objects| - 1];
      RowsPrefix(init, k, t);
      assert init[..k] == objects[..k];
    }
  }

  /** Rows written so far are rows of the snapshot. */
  lemma WrittenIsOld(objects: seq<ObjectEntry>, snap: Snapshot, k: nat, t: TableName, rowid: nat)
    requires k <= |objects| && Describes(objects, snap)
    requires rowid in InsertAll(map[], RowsOf(objects[..k], t))
    ensures rowid in Rows(snap.content, t)
  {
    hide RowsOf, InsertAll, Listing, FilesOf, Rows, Above;
    var rows := RowsOf(objects[..k], t);
    var full := Listing(Rows(snap.content, t), -1);
    RowsPrefix(objects, k, t);
    ListingExact(Rows(snap.content, t), -1);
    assert RowsOf(objects, t) == full;
    assert forall i | 0 <= i < |rows| :: rows[i] == full[i];
    InsertCovers(map[], rows, -1);
    var i :| 0 <= i < |rows| && rows[i].rowid == rowid;
    assert full[i].rowid == rowid;
  }

  lemma MetaStaysSingle(c: Content, objects: seq<ObjectEntry>, snap: Snapshot, k: nat)
    requires k <= |objects| && Describes(objects, snap) && SingleMeta(snap.content)
    requires Written(c, objects[..k])
    ensures SingleMeta(c)
  {
    hide RowsOf, InsertAll, Describes, Rows;
    assert Rows(c, Meta) == InsertAll(map[], RowsOf(objects[..k], Meta));
    forall r | r in Rows(c, Meta) ensures r == 1 { WrittenIsOld(objects, snap, k, Meta, r); }
  }

  /** Once a file object is reached all rows are back. */
  lemma RowsBackBeforeFiles(c: Content, objects: seq<ObjectEntry>, snap: Snapshot, k: nat, i: nat)
    requires i <= k <= |objects| && i < |objects| && objects[i].detail.FileDetail?
    requires TablesFirst(objects) && Describes(objects, snap) && Written(c, objects[..k])
    ensures forall t :: Rows(c, t) == Rows(snap.content, t)
  {
    RowsStop(objects, k);
    forall t ensures Rows(c, t) == Rows(snap.content, t) { ListingRestores(Rows(snap.content, t)); }
  }

  /** What is in the bucket was listed, and is named once all rows are back. */
  lemma ListedAreNamed(c: Content, files: map<string, Bytes>, snap: Snapshot)
    requires forall t :: Rows(c, t) == Rows(snap.content, t)
    requires Named(snap.content, snap.files) && forall key | key in files :: key in snap.files
    ensures Named(c, files)
    ensures forall key | key in snap.files :: NamesFile(c, key)
  {
    hide Rows;
  }

  /** Before the first file object nothing is in the bucket, and none is due. */
  lemma NoFilesYet(c: Content, bucket: map<string, Bytes>, objects: seq<ObjectEntry>, j: Job)
    requires j.stage == RestoreWrite && Rebuilt(c, bucket, objects, j)
    requires forall i | 0 <= i <= j.index && i < |objects| :: !objects[i].detail.FileDetail?
    ensures bucket == map[]
  {
    hide Written;
    FilesOnlyFromFiles(objects[..j.index]);
    if j.index < |objects| { FilesOnlyFromFiles(objects[..j.index + 1]); }
  }

  lemma BucketListed(c: Content, bucket: map<string, Bytes>, objects: seq<ObjectEntry>, snap: Snapshot, j: Job)
    requires j.stage == RestoreWrite && Rebuilt(c, bucket, objects, j) && Describes(objects, snap)
    ensures forall key | key in bucket :: key in snap.files
    ensures j.index < |objects| && objects[j.index].detail.FileDetail? && Typed(objects[j.index]) ==> objects[j.index].detail.file in snap.files
  {
    hide Written, RowsOf, Listing;
    var k := j.index;
    FilesGrow(objects, k);
    if k < |objects| {
      FilesGrow(objects, k + 1);
      AppendNext(objects, k);
    }
  }

  /** Files are put only after all rows are back, so whatever a restore has put so
      far is named by an attachment row it has written. */
  lemma PutFilesNamed(kind: Kind, c: Content, bucket: map<string, Bytes>, objects: seq<ObjectEntry>, snap: Snapshot, j: Job)
    requires TablesFirst(objects) && Describes(objects, snap) && WellKept(kind, snap.content, snap.files)
    requires TablesNamed(kind, c) && Rebuilt(c, bucket, objects, j) && RestoringStage(j.stage)
    ensures WellKept(kind, c, bucket)
    ensures j.stage == RestoreWrite && j.index < |objects| && objects[j.index].detail.FileDetail? && Typed(objects[j.index]) ==>
              NamesFile(c, objects[j.index].detail.file)
  {
    hide Describes, Written, Named, NamesFile, TablesFirst, Typed, Rows;
    if j.stage == RestoreCheck {
      CheckNamed(c, bucket, objects, snap);
    } else if j.stage == RestoreWrite {
      var k := j.index;
      MetaStaysSingle(c, objects, snap, k);
      BucketListed(c, bucket, objects, snap, j);
      if i :| 0 <= i <= k && i < |objects| && objects[i].detail.FileDetail? {
        RowsBackBeforeFiles(c, objects, snap, k, i);
        ListedAreNamed(c, bucket, snap);
      } else {
        NoFilesYet(c, bucket, objects, j);
        NothingNamed(c);
      }
    } else {
      EmptyIsKept(c, bucket);
    }
  }

  lemma CheckNamed(c: Content, bucket: map<string, Bytes>, objects: seq<ObjectEntry>, snap: Snapshot)
    requires Describes(objects, snap) && Written(c, objects) && bucket == FilesOf(objects)
    requires Named(snap.content, snap.files) && SingleMeta(snap.content)
    ensures Named(c, bucket) && SingleMeta(c)
  {
    hide Rows, RowsOf, Listing, Written;
    WrittenIsSnapshot(c, objects, snap);
    ListedAreNamed(c, bucket, snap);
  }

  lemma NothingNamed(c: Content)
    ensures Named(c, map[])
  {
  }

  lemma EmptyIsKept(c: Content, bucket: map<string, Bytes>)
    requires Empty(c) && bucket == map[]
    ensures Named(c, bucket) && SingleMeta(c)
  {
  }

  /** `PutFilesNamed` for the archive a restore job works from. */
  lemma RestoreFilesNamed(w: World, h: History, j: Job)
    requires RestoreOk(w.o.record.kind, w.o.content, w.bucket, w.store, w.o.archives, j) && RestoringStage(j.stage)
    requires ArchivesHold(w.o.record.kind, w.o.archives, w.store, h.snaps)
    ensures WellKept(w.o.record.kind, w.o.content, w.bucket)
    ensures forall key, bytes | j.stage == RestoreWrite && IsFile(ManifestFor(w.store, j).value, j.index, key, bytes) ::
              NamesFile(w.o.content, key)
  {
    var id := j.receipt.value.archive;
    assert ArchiveHolds(w.store, w.o.archives[id], h.snaps[id]);
    PutFilesNamed(w.o.record.kind, w.o.content, w.bucket, ManifestFor(w.store, j).value.objects, h.snaps[id], j);
  }

  /** What a cancel that is accepted does to each part of the world. */
  lemma CancelParts(w: World)
    requires w.o.job.Some? && w.o.job.value.stage != Erase
    ensures var w' := Cancel(w);
            var j := w.o.job.value;
            && w'.pc == w.pc && w'.bucket == w.bucket && w'.store == w.store
            && w'.o.content == w.o.content && w'.o.archives == w.o.archives
            && w'.o.objects == w.o.objects - {j.id} && w'.o.record.kind == w.o.record.kind
            && (j.action != Restore ==> w'.o.job.None? && w'.o.record.state == Active && w'.nextId == w.nextId)
            && (j.action == Restore && j.stage == RestoreVerify ==>
                  w'.o.job.None? && w'.o.record.state == Deleted && w'.nextId == w.nextId)
            && (j.action == Restore && j.stage != RestoreVerify ==>
                  && w'.o.record.state == Deleting && w'.nextId == w.nextId + 1 && w'.o.job.Some?
                  && w'.o.job.value.id == w.nextId && w'.o.job.value.action == Delete && w'.o.job.value.stage == Erase
                  && w'.o.job.value.cursor == -1)
  {
  }

  lemma UntouchedContent(w: World, h: History, j: Job)
    requires w.o.job == Some(j)
    requires Inv(w, h)
    ensures BackingUp(j.stage) ==>
              w.o.content == h.frozen && w.bucket == h.frozenFiles && WellKept(w.o.record.kind, w.o.content, w.bucket)
    ensures j.stage == RestoreVerify ==> Empty(w.o.content) && w.bucket == map[] && TablesNamed(w.o.record.kind, w.o.content)
  {
    hide Running, ArchivesHold, WellKept, Covered, ManifestFor, Empty;
  }

  /** Cancelling before live content has changed. */
  lemma CancelBackup(w: World, h: History)
    requires BackupJob(w) || JobAt(w, RestoreVerify)
    requires Inv(w, h)
    ensures Inv(Cancel(w), h)
    ensures Remember(h, w, Cancel(w)) == h
  {
    hide Running, ArchivesHold, WellKept, JobHolding, Cancel, Empty;
    CancelParts(w);
    UntouchedContent(w, h, w.o.job.value);
    var w' := Cancel(w);
    NoObjects(w, h);
    StepIsNotPutting(w, h, w.o.job.value);
    StepAbandoned(w.pc, w.o.record.kind, w.o.job, None, w.o.content, w.bucket, w.store, w.o.objects, w'.o.objects);
  }

  lemma StepIsNotPutting(w: World, h: History, j: Job)
    requires w.o.job == Some(j) && j.stage != RestoreWrite
    requires Inv(w, h)
    ensures !(w.pc.PutFile? && LiveStep(w))
  {
    hide Holding, ArchivesHold, Shape, Ids;
  }

  /** Cancelling a restore that has begun to write leaves its put files named, so
      that the rollback will find them. */
  lemma CancelWrite(w: World, h: History)
    requires JobAt(w, RestoreWrite) || JobAt(w, RestoreCheck)
    requires Inv(w, h)
    ensures Inv(Cancel(w), h)
    ensures Remember(h, w, Cancel(w)) == h
  {
    hide Running, ArchivesHold, WellKept, RestoreOk, NamesFile, Cancel, ManifestFor;
    CancelParts(w);
    var w' := Cancel(w);
    NoObjects(w, h);
    RestoreFilesNamed(w, h, w.o.job.value);
    PutIsNamed(w, h);
    StepAbandoned(w.pc, w.o.record.kind, w.o.job, w'.o.job, w.o.content, w.bucket, w.store, w.o.objects, w'.o.objects);
  }

  /** The file being put is one an attachment row names. */
  ghost predicate PutNamed(w: World) {
    w.pc.PutFile? ==> NamesFile(w.o.content, w.pc.key)
  }

  lemma PutIsNamed(w: World, h: History)
    requires JobAt(w, RestoreWrite) || JobAt(w, RestoreCheck)
    requires Inv(w, h)
    ensures LiveStep(w) ==> PutNamed(w)
  {
    hide ArchivesHold, WellKept, RestoreOk, NamesFile, LiveStep, ManifestFor;
    RestoreFilesNamed(w, h, w.o.job.value);
  }

  lemma CancelKept(w: World, h: History)
    requires Inv(w, h)
    ensures Inv(Cancel(w), Remember(h, w, Cancel(w)))
  {
    if w.o.job.Some? && w.o.job.value.stage != Erase {
      match w.o.job.value.stage {
        case RestoreWrite => CancelWrite(w, h);
        case RestoreCheck => CancelWrite(w, h);
        case _ => CancelBackup(w, h);
      }
    }
  }
}
