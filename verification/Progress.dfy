/** A job makes progress: every step that succeeds brings it nearer its end. */
module Progress {
  import opened Options
  import opened Tables
  import opened Backup
  import opened Lifecycle
  import opened LifecycleInvariant
  import opened LifecycleSteps
  import opened LifecycleFrames
  import opened LifecycleResults
  import opened LifecycleReady

  /** What is left of a job: stages, then tables, then rows after the cursor or
      objects, then calls of the running step, then the write of its put. */
  datatype Measure = Measure(stage: nat, tables: nat, items: nat, calls: nat, puts: nat)

  ghost predicate Less(a: Measure, b: Measure) {
    || a.stage < b.stage
    || (a.stage == b.stage && a.tables < b.tables)
    || (a.stage == b.stage && a.tables == b.tables && a.items < b.items)
    || (a.stage == b.stage && a.tables == b.tables && a.items == b.items && a.calls < b.calls)
    || (a.stage == b.stage && a.tables == b.tables && a.items == b.items && a.calls == b.calls && a.puts < b.puts)
  }

  function StageRank(stage: Stage): nat {
    match stage
    case Snapshots => 7
    case Files => 6
    case WriteManifest => 5
    case RestoreVerify => 4
    case RestoreWrite => 3
    case RestoreCheck => 2
    case Erase => 1
  }

  function CallsLeft(pc: Pc): nat {
    match pc
    case Idle => 5
    case NeedManifest(_) => 4
    case GetFile(_, _, _, _) => 3
    case NeedObject(_, _) => 3
    case NeedFile(_, _) => 3
    case PutObject(_, _, _, _) => 2
    case PutFile(_, _, _) => 2
    case EraseFile(_, _) => 2
    case _ => 1
  }

  ghost function ItemsLeft(kind: Kind, c: Content, store: Store, j: Job): nat {
    match j.stage
    case Snapshots =>
      if j.table < |AllTables(kind, c)| then |Above(KeptTable(c, AllTables(kind, c)[j.table]), j.cursor)| else 0
    case Files => |Above(ReadyOnly(Rows(c, Attachments)), j.cursor)|
    case WriteManifest => 0
    case Erase => |Rows(c, Attachments)|
    case _ =>
      var m := ManifestFor(store, j);
      if m.Some? && j.index <= |m.value.objects| then |m.value.objects| - j.index else 0
  }

  ghost function TablesLeft(kind: Kind, c: Content, j: Job): nat {
    if j.stage == Snapshots && j.table <= |AllTables(kind, c)| then |AllTables(kind, c)| - j.table else 0
  }

  ghost function Left(w: World): Measure {
    if w.o.job.None? then Measure(0, 0, 0, 0, 0)
    else
      var j := w.o.job.value;
      Measure(StageRank(j.stage), TablesLeft(w.o.record.kind, w.o.content, j),
              ItemsLeft(w.o.record.kind, w.o.content, w.store, j), CallsLeft(w.pc), if Unwritten(w) then 1 else 0)
  }

  /** What a step waits to see written in the archive store, and under which key. */
  function PutOf(pc: Pc): Option<(StoreKey, Blob)> {
    match pc
    case PutObject(job, blob, _, _) => Some((ObjectKey(job.id, job.index), blob))
    case PutManifest(job, m) => Some((ManifestKey(job.id), ManifestBlob(m)))
    case _ => None
  }

  predicate Unwritten(w: World) {
    PutOf(w.pc).Some? && PutOf(w.pc).value.0 !in w.store
  }

  /** The next event of the running step when nothing interferes: a put writes its
      own blob if nothing is there, and a call takes effect before it answers. */
  function NextEvent(w: World): Event {
    if Unwritten(w) then StoreGrew(PutOf(w.pc).value.0, PutOf(w.pc).value.1)
    else
      match w.pc
      case Idle => StartStep
      case EraseFile(_, _) => Effect
      case PutFile(_, _, _) => Effect
      case _ => Answer
  }

  /** The state in which a job that is left alone leaves its resource. */
  function Outcome(action: Action): ResourceState {
    if action == Archive || action == Restore then Active else Deleted
  }

  predicate Reads(stage: Stage) { stage == Snapshots || stage == Files }

  predicate Archives(action: Action) { action == Archive || action == ArchiveDelete }

  /** The same job further on. */
  ghost predicate Further(j: Job, j': Job) {
    && j'.id == j.id && j'.action == j.action
    && (Reads(j'.stage) ==> Reads(j.stage)) && (BackingUp(j'.stage) ==> BackingUp(j.stage))
    && (j.action == Restore ==> j'.receipt == j.receipt)
  }

  /** The job has ended in the state it was for, and an archive job with its receipt. */
  ghost predicate Ended(j: Job, w: World) {
    w.o.job.None? && w.o.record.state == Outcome(j.action) && (Archives(j.action) ==> j.id in w.o.archives)
  }

  ghost predicate Nearer(w: World, w': World) {
    && w.o.job.Some?
    && if w'.o.job.None? then Ended(w.o.job.value, w')
       else Further(w.o.job.value, w'.o.job.value) && Less(Left(w'), Left(w))
  }

  // ---- Each kind of step ----

  lemma AboveLess(m: Table<Row>, a: int, b: int)
    requires a < b && b in Above(m, a)
    ensures |Above(m, b)| < |Above(m, a)|
  {
    assert Above(m, b) <= Above(m, a) - {b};
    SubsetSize(Above(m, b), Above(m, a) - {b});
  }

  lemma {:induction false} SubsetSize(a: set<nat>, b: set<nat>)
    requires a <= b
    ensures |a| <= |b|
  {
    if a != {} {
      var x :| x in a;
      SubsetSize(a - {x}, b - {x});
    }
  }

  lemma CursorAhead(kind: Kind, c: Content, j: Job, blob: Blob, detail: Detail, bucket: map<string, Bytes>, cursor: int)
    requires WellKept(kind, c, bucket) && Due(c, AllTables(kind, c), bucket, j, blob, detail, cursor)
    requires j.stage == Snapshots || j.stage == Files
    ensures ItemsLeft(kind, c, map[], j.(cursor := cursor)) < ItemsLeft(kind, c, map[], j)
  {
    hide Listing, Sum, ChunkLength, Select, Least, AllTables, Named;
    if j.stage == Snapshots {
      var t := AllTables(kind, c)[j.table];
      var rows := SnapshotRows(c, t, j.cursor);
      var m := KeptTable(c, t);
      ChunkAdvances(c, t, j.cursor);
      var all := Listing(m, j.cursor);
      ListingExact(m, j.cursor);
      assert all[|rows| - 1] == rows[|rows| - 1];
      AboveLess(m, j.cursor, cursor);
    } else {
      AboveLess(ReadyOnly(Rows(c, Attachments)), j.cursor, cursor);
    }
  }

  lemma SavedLeft(w: World, j: Job)
    requires Live(w.o, j)
    ensures var w' := Saved(w, j);
            w'.o.job == Some(j) && w'.pc == Idle && w'.o.content == w.o.content && w'.store == w.store
            && w'.o.record == w.o.record
  {
  }

  lemma TableCloser(w: World, j': Job)
    requires JobAt(w, Snapshots) && w.o.job.value.table < |AllTables(w.o.record.kind, w.o.content)|
    requires j' == NextTable(w.o.job.value)
    ensures Nearer(w, Saved(w, j'))
  {
    hide ItemsLeft, CallsLeft, AllTables, Saved;
    SavedLeft(w, j');
  }

  lemma SavedStageCloser(w: World, j': Job)
    requires w.o.job.Some? && Further(w.o.job.value, j') && StageRank(j'.stage) < StageRank(w.o.job.value.stage)
    ensures Nearer(w, Saved(w, j'))
  {
    hide Saved, Nearer;
    SavedLeft(w, j');
    StageCloser(w, Saved(w, j'));
  }

  lemma StartProgress(w: World, h: History)
    requires w.o.job.Some? && w.pc.Idle?
    requires Inv(w, h)
    ensures Nearer(w, Start(w))
  {
    hide Inv, Start, Nearer, Saved, Finish, SnapshotRows, Select, Rows, AllTables, Covered, WellKept, RestoreOk,
         SnapshotOf, ReadyOnly, SingleMeta, Cleared;
    StoredJob(w, h);
    var j := w.o.job.value;
    match j.stage {
      case Snapshots =>
        StartSnapshotsIs(w);
        CoveredInRange(w.o.record.kind, w.o.content, w.bucket, w.store, ObjectsOf(w.o, j.id), j);
        var all := AllTables(w.o.record.kind, w.o.content);
        if |all| <= j.table {
          SavedStageCloser(w, j.(stage := Files, cursor := -1));
        } else if SnapshotRows(w.o.content, all[j.table], j.cursor) == [] {
          TableCloser(w, NextTable(j));
        } else {
          WaitCloser(w, Start(w).pc);
        }
      case Files =>
        MetaOf(w.o.record.kind, w.o.content, w.bucket);
        StartFilesIs(w);
        if Above(ReadyOnly(Rows(w.o.content, Attachments)), j.cursor) == {} {
          SavedStageCloser(w, j.(stage := WriteManifest));
        } else {
          WaitCloser(w, Start(w).pc);
        }
      case Erase =>
        StartEraseIs(w);
        FinishParts(w, j, Deleted, true);
        ErasesWithReceipt(w, h, j);
        if Start(w).o.job.None? { EndedCloser(w, Start(w)); } else { WaitCloser(w, Start(w).pc); }
      case _ =>
        StartWaits(w);
        WaitCloser(w, Start(w).pc);
    }
  }

  lemma ErasesWithReceipt(w: World, h: History, j: Job)
    requires w.o.job == Some(j) && j.stage == Erase
    requires Inv(w, h)
    ensures j.action == ArchiveDelete ==> j.id in w.o.archives
    ensures j.action == Delete || j.action == ArchiveDelete
  {
    hide Inv, WellKept, SnapshotOf;
    StoredJob(w, h);
  }

  predicate FirstIn(files: seq<Listed<Row>>, m: Table<Row>) { files != [] && files[0].rowid in m }

  lemma EraseHasFiles(w: World, h: History, j: Job, files: seq<Listed<Row>>)
    requires (w.pc == EraseFile(j, files) || w.pc == FileErased(j, files)) && LiveStep(w)
    requires Inv(w, h)
    ensures FirstIn(files, Rows(w.o.content, Attachments))
    ensures w.o.job == Some(j) && j.stage == Erase
  {
    hide Inv, Holds, ArchivesHold, Due, ManifestFor, AllTables, Rows;
    StepKnows(w, h);
  }

  lemma LandIs(w: World, h: History)
    requires w.o.job.Some? && (w.pc.EraseFile? || w.pc.PutFile?) && LiveStep(w)
    requires Inv(w, h)
    ensures Land(w).o == w.o && Land(w).store == w.store && CallsLeft(Land(w).pc) < CallsLeft(w.pc)
  {
    hide Inv, Rows;
    if w.pc.EraseFile? { EraseHasFiles(w, h, w.pc.job, w.pc.files); }
  }

  lemma CallMade(w: World, w': World)
    requires w.o.job.Some? && w'.o == w.o && w'.store == w.store && CallsLeft(w'.pc) < CallsLeft(w.pc)
    ensures Nearer(w, w')
  {
    hide TablesLeft, ItemsLeft, CallsLeft;
  }

  lemma LandProgress(w: World, h: History)
    requires w.o.job.Some? && (w.pc.EraseFile? || w.pc.PutFile?) && LiveStep(w)
    requires Inv(w, h)
    ensures Nearer(w, Land(w))
  {
    hide *;
    LandIs(w, h);
    CallMade(w, Land(w));
  }

  lemma RecordedProgress(w: World, h: History)
    requires w.pc.Recorded? && LiveStep(w) && Resume(w) != Failed(w)
    requires Inv(w, h)
    ensures Nearer(w, Resume(w))
  {
    hide Inv, Saved, Failed, Covered, AllTables, KeptTable, ManifestFor, WellKept, Due, SnapshotOf, Live, LiveStep,
         ObjectsOf, ArchivesHold, BackupHeld;
    StepKnows(w, h);
    BackupStep(w, h);
    var j := w.o.job.value;
    var objs := ObjectsOf(w.o, j.id);
    DueStage(w.o.content, AllTables(w.o.record.kind, w.o.content), w.bucket, j, objs[j.index].hash.preimage, objs[j.index].detail, w.pc.cursor);
    CursorAhead(w.o.record.kind, w.o.content, j, objs[j.index].hash.preimage, objs[j.index].detail, w.bucket, w.pc.cursor);
    SavedLeft(w, w.pc.job.(cursor := w.pc.cursor));
  }

  lemma DueStage(c: Content, all: seq<TableName>, bucket: map<string, Bytes>, j: Job, blob: Blob, detail: Detail, cursor: int)
    requires Due(c, all, bucket, j, blob, detail, cursor)
    ensures j.stage == Snapshots || j.stage == Files
  {
  }

  lemma ManifestProgress(w: World, h: History)
    requires w.pc.PutManifest? && LiveStep(w) && Resume(w) != Failed(w)
    requires Inv(w, h)
    ensures Nearer(w, Resume(w))
  {
    hide Inv, Finish, Saved, Failed, ReadVerified, Covered, WellKept, SnapshotOf, ItemsLeft, TablesLeft;
    StepKnows(w, h);
    var j, m := w.pc.job, w.pc.manifest;
    AnswerManifestIs(w, j, m);
    var w' := Receipted(w, j, m);
    var j' := j.(receipt := Some(ReceiptOf(j, m)));
    FinishParts(w', j', Active, false);
    SavedLeft(w', j'.(stage := Erase));
  }

  lemma RowGone(m: Table<Row>, rowid: nat)
    requires rowid in m
    ensures |m - {rowid}| < |m|
  {
    var m' := m - {rowid};
    assert m.Keys == m'.Keys + {rowid};
    assert |m'| == |m'.Keys| && |m| == |m.Keys|;
  }

  lemma ErasedProgress(w: World, h: History)
    requires w.pc.FileErased? && LiveStep(w)
    requires Inv(w, h)
    ensures Nearer(w, Resume(w))
  {
    hide Inv, Resume, ManifestFor, AllTables, Covered, WellKept, SnapshotOf;
    var j := w.pc.job;
    EraseHasFiles(w, h, j, w.pc.files);
    var first, rest := w.pc.files[0], w.pc.files[1..];
    assert w.pc.files == [first] + rest;
    ErasedIs(w, j, first, rest);
    RowGone(Rows(w.o.content, Attachments), first.rowid);
  }

  /** The step of a restore job handles one object. */
  predicate ReadsBack(w: World, j: Job) { (w.pc.NeedObject? || w.pc.NeedFile? || w.pc.FilePut?) && w.pc.job == j }

  lemma RestoreLeft(w: World, h: History, j: Job, c: Content)
    requires ReadsBack(w, j) && LiveStep(w)
    requires Inv(w, h)
    ensures Nearer(w, Saved(w.(o := w.o.(content := c)), Counted(j)))
  {
    hide Inv, Covered, WellKept, SnapshotOf, ManifestFor, Rebuilt, LiveStep, ArchivesHold;
    StepKnows(w, h);
    RestoreStep(w, h);
    SameManifest(w.store, j, Counted(j));
  }

  lemma WaitCloser(w: World, pc: Pc)
    requires w.o.job.Some? && CallsLeft(pc) < CallsLeft(w.pc)
    ensures Nearer(w, w.(pc := pc))
  {
    hide ItemsLeft, TablesLeft, CallsLeft;
  }

  lemma StageCloser(w: World, w': World)
    requires w.o.job.Some? && w'.o.job.Some? && Further(w.o.job.value, w'.o.job.value)
    requires StageRank(w'.o.job.value.stage) < StageRank(w.o.job.value.stage)
    ensures Nearer(w, w')
  {
    hide ItemsLeft, TablesLeft, CallsLeft;
  }

  lemma ManifestReadProgress(w: World, h: History)
    requires w.pc.NeedManifest? && LiveStep(w) && Resume(w) != Failed(w)
    requires Inv(w, h)
    ensures Nearer(w, Resume(w))
  {
    hide Inv, Finish, Failed, ManifestFor, RoomFor, Covered, WellKept, SnapshotOf, RestoreOk, Saved, Nearer, Live, Resume;
    StepKnows(w, h);
    LiveStays(w, w);
    var m := ManifestFor(w.store, w.pc.job);
    if m.Some? {
      var j := w.pc.job;
      HasManifestIs(w, j, m.value);
      if j.index < |m.value.objects| {
        MoreToRead(w, j, m.value);
        WaitCloser(w, HasManifest(w, j, m.value).pc);
      } else if j.stage == RestoreVerify {
        var w1 := w.(o := w.o.(content := RoomFor(w.o.content, m.value.tables)));
        LiveStays(w, w1);
        SavedLeft(w1, ToWrite(j));
        StageCloser(w, Resume(w));
      } else if j.stage == RestoreWrite {
        SavedLeft(w, ToCheck(j));
        StageCloser(w, Resume(w));
      } else {
        FinishParts(w, j.(source := m.value.resource), Active, false);
        EndedCloser(w, Resume(w));
      }
    } else {
      NotRead(w, w.pc.job);
    }
  }

  lemma EndedCloser(w: World, w': World)
    requires w.o.job.Some? && Ended(w.o.job.value, w')
    ensures Nearer(w, w')
  {
    hide Left, Less;
  }

  lemma LiveStays(w: World, w': World)
    requires LiveStep(w) && w'.o.job == w.o.job
    ensures w.o.job.Some? && forall j: Job | j.id == w.pc.job.id :: Live(w'.o, j)
  {
  }

  lemma ObjectReadProgress(w: World, h: History)
    requires w.pc.NeedObject? && LiveStep(w) && Resume(w) != Failed(w)
    requires Inv(w, h)
    ensures Nearer(w, Resume(w))
  {
    hide Inv, Saved, Failed, Resume, HasObject, ManifestFor, WellKept, ReadVerified, WriteEntry, Nearer, Holds;
    StepKnows(w, h);
    var j := w.pc.job;
    var e := w.pc.manifest.objects[j.index];
    NeedObjectIs(w, j, w.pc.manifest, e);
    HasObjectIs(w, j, e, e.hash.preimage);
    RestoreLeft(w, h, j, w.o.content);
    RestoreLeft(w, h, j, WriteEntry(w.o.content, e));
    assert w.(o := w.o.(content := w.o.content)) == w;
    if e.hash.preimage.FileBlob? && e.detail.FileDetail? {
      WaitCloser(w, PutFile(j, e.detail.file, e.hash.preimage.bytes));
    }
  }

  lemma FileBackProgress(w: World, h: History)
    requires (w.pc.NeedFile? || w.pc.FilePut?) && LiveStep(w) && Resume(w) != Failed(w)
    requires Inv(w, h)
    ensures Nearer(w, Resume(w))
  {
    hide Inv, Saved, Failed, Nearer;
    RestoreLeft(w, h, w.pc.job, w.o.content);
    assert w.(o := w.o.(content := w.o.content)) == w;
  }

  /** The put of a running backup step is written. */
  lemma WriteProgress(w: World, h: History)
    requires Unwritten(w) && LiveStep(w)
    requires Inv(w, h)
    ensures Nearer(w, Apply(w, NextEvent(w)))
  {
    hide Inv, Covered, WellKept, SnapshotOf, AllTables, KeptTable, ReadyOnly;
    BackupStep(w, h);
  }

  /** The next event of a step that is not abandoned, unless it fails, ends the job or
      brings it nearer its end. */
  lemma NextNearer(w: World, h: History)
    requires Unabandoned(w)
    requires Apply(w, NextEvent(w)) != Failed(w) || w.pc.Idle?
    requires Inv(w, h)
    ensures Nearer(w, Apply(w, NextEvent(w)))
  {
    hide Inv, Start, Land, Resume, Failed, Nearer;
    if Unwritten(w) {
      WriteProgress(w, h);
    } else {
      match w.pc {
        case Idle => StartProgress(w, h);
        case EraseFile(_, _) => LandProgress(w, h);
        case PutFile(_, _, _) => LandProgress(w, h);
        case Recorded(_, _, _) => RecordedProgress(w, h);
        case PutManifest(_, _) => ManifestProgress(w, h);
        case FileErased(_, _) => ErasedProgress(w, h);
        case NeedManifest(_) => ManifestReadProgress(w, h);
        case NeedObject(_, _) => ObjectReadProgress(w, h);
        case NeedFile(_, _) => FileBackProgress(w, h);
        case FilePut(_) => FileBackProgress(w, h);
        case PutObject(_, _, _, _) => PutProgress(w, h);
        case GetFile(_, _, _, _) => PutProgress(w, h);
      }
    }
  }

  /** In every reachable state with a job whose step is not abandoned, the step's
      next event, unless it fails, ends the job in the state it was for or decreases
      what is left of it. So a job that is neither cancelled nor kept failing ends. */
  lemma JobsProgress(w: World, h: History)
    requires Unabandoned(w)
    requires Apply(w, NextEvent(w)) != Failed(w) || w.pc.Idle?
    requires Reachable(w, h)
    ensures Nearer(w, Apply(w, NextEvent(w)))
  {
    hide *;
    ReachableHolds(w, h);
    NextNearer(w, h);
  }

  lemma PutProgress(w: World, h: History)
    requires (w.pc.PutObject? || w.pc.GetFile?) && LiveStep(w) && Resume(w) != Failed(w)
    requires Inv(w, h)
    ensures Nearer(w, Resume(w))
  {
    hide Inv, Failed, ReadVerified, ItemsLeft, TablesLeft, PutAt, ObjectsOf;
    StepHasJob(w, h);
  }

  // ---- A live step stays live ----

  /** A step that is not abandoned does not abandon itself. */
  lemma NextStaysLive(w: World)
    requires Unabandoned(w)
    ensures Apply(w, NextEvent(w)).pc.Idle? || LiveStep(Apply(w, NextEvent(w)))
  {
    hide Start, Resume;
    StartStepped(w);
    ResumeStepped(w);
  }
}
