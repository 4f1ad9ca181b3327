/** Archive keys are under a fresh id of their job. As long as nobody else writes
    there, no backup finds a key taken, whatever crashes, retries and late writes
    there are: so a backup left alone ends exactly when its files can be read. */
module OwnWrites {
  import opened Options
  import opened Tables
  import opened Backup
  import opened Lifecycle
  import opened LifecycleInvariant
  import opened LifecycleSteps
  import opened LifecycleFrames
  import opened LifecycleTheorems
  import opened LifecycleResults
  import opened LifecycleReady
  import opened Progress
  import opened Completion

  /** A write to the archive store is the put of the running step. */
  ghost predicate Own(w: World, ev: Event) {
    ev.StoreGrew? ==> PutOf(w.pc) == Some((ev.key, ev.blob))
  }

  ghost predicate OwnWritesOnly(w: World, h: History, evs: seq<Event>) {
    forall k | 0 <= k < |evs| :: Own(Run(w, h, evs[..k]).0, evs[k])
  }

  ghost predicate IsDue(kind: Kind, c: Content, bucket: map<string, Bytes>, j: Job, blob: Blob) {
    exists detail, cursor :: Due(c, AllTables(kind, c), bucket, j, blob, detail, cursor)
  }

  /** Of the keys of a backup only those of counted objects are taken, and perhaps
      the next one, by the object due there. */
  ghost predicate JobTidy(kind: Kind, c: Content, bucket: map<string, Bytes>, store: Store, objs: seq<ObjectEntry>, j: Job) {
    && (forall i: nat | ObjectKey(j.id, i) in store ::
          i < j.index || (i == j.index && IsDue(kind, c, bucket, j, store[ObjectKey(j.id, i)])))
    && (ManifestKey(j.id) in store ==>
          j.stage == WriteManifest && store[ManifestKey(j.id)] == ManifestBlob(Manifest(j.id, j.source, AllTables(kind, c), objs)))
  }

  /** No archive key has an id that is still to be given. */
  ghost predicate IdsTaken(store: Store, nextId: nat) {
    forall key | key in store :: key.archive < nextId
  }

  ghost predicate Tidy(w: World) {
    && IdsTaken(w.store, w.nextId)
    && (w.o.job.Some? && BackingUp(w.o.job.value.stage) ==>
          JobTidy(w.o.record.kind, w.o.content, w.bucket, w.store, ObjectsOf(w.o, w.o.job.value.id), w.o.job.value))
  }

  // ---- Every event keeps the keys tidy ----

  lemma DueIsMore(kind: Kind, c: Content, bucket: map<string, Bytes>, j: Job, blob: Blob)
    requires IsDue(kind, c, bucket, j, blob)
    ensures MoreDue(c, AllTables(kind, c), j)
  {
    hide SnapshotRows, AllTables;
  }

  lemma NewsTidy(w: World, w': World)
    requires Quiet(w, w')
    requires Tidy(w)
    ensures Tidy(w')
  {
    hide IsDue, AllTables;
  }

  /** The job stays as it is, and so does what its keys depend on. */
  lemma SameTidy(w: World, w': World)
    requires w'.store == w.store && w'.nextId == w.nextId
    requires w'.o.job.Some? && BackingUp(w'.o.job.value.stage) ==>
      && w'.o.job == w.o.job && w'.o.content == w.o.content && w'.bucket == w.bucket && w'.o.record.kind == w.o.record.kind
      && w'.o.objects == w.o.objects
    requires Tidy(w)
    ensures Tidy(w')
  {
    hide IsDue, AllTables;
  }

  /** A job with nothing due at its cursor moves on. */
  lemma MoveTidy(w: World, j': Job)
    requires BackupJob(w) && w.o.job.value.stage != WriteManifest
    requires j'.id == w.o.job.value.id && j'.index == w.o.job.value.index
    requires !MoreDue(w.o.content, AllTables(w.o.record.kind, w.o.content), w.o.job.value)
    requires Tidy(w)
    ensures Tidy(Saved(w, j'))
  {
    hide IsDue, AllTables, MoreDue;
    var j := w.o.job.value;
    if ObjectKey(j.id, j.index) in w.store && IsDue(w.o.record.kind, w.o.content, w.bucket, j, w.store[ObjectKey(j.id, j.index)]) {
      DueIsMore(w.o.record.kind, w.o.content, w.bucket, j, w.store[ObjectKey(j.id, j.index)]);
    }
  }

  lemma StartTidy(w: World, h: History)
    requires w.pc.Idle? && w.o.job.Some?
    requires Inv(w, h) && Tidy(w)
    ensures Tidy(Start(w))
  {
    hide Inv, Tidy, Start, Saved, Covered, WellKept, SnapshotOf, SnapshotRows, AllTables, RestoreOk, ReadyOnly;
    StoredJob(w, h);
    var j := w.o.job.value;
    match j.stage {
      case Snapshots =>
        StartSnapshotsIs(w);
        CoveredInRange(w.o.record.kind, w.o.content, w.bucket, w.store, ObjectsOf(w.o, j.id), j);
        var all := AllTables(w.o.record.kind, w.o.content);
        if |all| <= j.table {
          MoveTidy(w, j.(stage := Files, cursor := -1));
        } else if SnapshotRows(w.o.content, all[j.table], j.cursor) == [] {
          MoveTidy(w, NextTable(j));
        } else {
          SameTidy(w, Start(w));
        }
      case Files =>
        MetaOf(w.o.record.kind, w.o.content, w.bucket);
        StartFilesIs(w);
        if Above(ReadyOnly(Rows(w.o.content, Attachments)), j.cursor) == {} {
          MoveTidy(w, j.(stage := WriteManifest));
        } else {
          SameTidy(w, Start(w));
        }
      case WriteManifest => StartWaits(w); SameTidy(w, Start(w));
      case Erase => StartEraseIs(w); FinishParts(w, j, Deleted, true); SameTidy(w, Start(w));
      case _ => StartWaits(w); SameTidy(w, Start(w));
    }
  }

  lemma LandTidy(w: World, h: History)
    requires Inv(w, h) && Tidy(w)
    ensures Tidy(Land(w))
  {
    hide Tidy, ArchivesHold, Holding, Ids, Shape, ManifestFor, AllTables, Rows, FromTable;
    SameTidy(w, Land(w));
  }

  lemma WriteTidy(w: World, h: History, key: StoreKey, blob: Blob)
    requires PutOf(w.pc) == Some((key, blob))
    requires Inv(w, h) && Tidy(w)
    ensures Tidy(w.(store := w.store[key := blob]))
  {
    hide Inv, Due, AllTables, WellKept, SnapshotOf, Covered, ArchivesHold;
    IdsOf(w, h);
    if Live(w.o, w.pc.job) {
      BackupStep(w, h);
      StepKnows(w, h);
    }
  }

  lemma FailedFrame(w: World)
    ensures Failed(w).o.job == w.o.job && Failed(w).o.content == w.o.content && Failed(w).o.objects == w.o.objects
    ensures Failed(w).o.record.kind == w.o.record.kind
  {
  }

  lemma AnswerPutTidy(w: World, h: History)
    requires w.pc.PutObject? && LiveStep(w) && Resume(w) != Failed(w)
    requires Inv(w, h) && Tidy(w)
    ensures Tidy(Resume(w))
  {
    hide Inv, Failed, PutAt, IsDue, AllTables, ReadVerified, WellKept, SnapshotOf, Covered;
    AnswerObjectIs(w, w.pc.job, w.pc.blob, w.pc.detail, w.pc.cursor);
    BackupStep(w, h);
    StepKnows(w, h);
    DueStage(w.o.content, AllTables(w.o.record.kind, w.o.content), w.bucket, w.o.job.value, w.pc.blob, w.pc.detail, w.pc.cursor);
  }

  lemma RecordedTidy(w: World, h: History)
    requires w.pc.Recorded? && LiveStep(w) && Resume(w) != Failed(w)
    requires Inv(w, h) && Tidy(w)
    ensures Tidy(Resume(w))
  {
    hide Inv, Failed, IsDue, AllTables, Due, WellKept, SnapshotOf, Covered, LiveStep, ObjectsOf;
    BackupStep(w, h);
    StepKnows(w, h);
    var objs := ObjectsOf(w.o, w.o.job.value.id);
    var e := objs[w.o.job.value.index];
    DueStage(w.o.content, AllTables(w.o.record.kind, w.o.content), w.bucket, w.o.job.value, e.hash.preimage, e.detail, w.pc.cursor);
  }

  lemma ManifestTidy(w: World, h: History)
    requires w.pc.PutManifest? && LiveStep(w) && Resume(w) != Failed(w)
    requires Inv(w, h) && Tidy(w)
    ensures Tidy(Resume(w))
  {
    hide Inv, Tidy, Failed, Finish, ReadVerified;
    var j, m := w.pc.job, w.pc.manifest;
    AnswerManifestIs(w, j, m);
    FinishParts(Receipted(w, j, m), j.(receipt := Some(ReceiptOf(j, m))), Active, false);
    SameTidy(w, Resume(w));
  }

  /** Steps of other jobs do not make a backup of them. */
  lemma OtherTidy(w: World, h: History)
    requires LiveStep(w) && Resume(w) != Failed(w)
    requires !w.pc.PutObject? && !w.pc.Recorded? && !w.pc.GetFile? && !w.pc.PutManifest?
    requires Inv(w, h) && Tidy(w)
    ensures Tidy(Resume(w))
  {
    hide Inv, Tidy, Resume, Failed, ManifestFor, Holds, Rows, FromTable, Ascending, Less, Left;
    StepKnows(w, h);
    ResumeStepped(w);
    if w.pc.EraseFile? || w.pc.PutFile? { ResumeStays(w); } else { NextNearer(w, h); }
    SameTidy(w, Resume(w));
  }

  lemma ResumeTidy(w: World, h: History)
    requires Inv(w, h) && Tidy(w)
    ensures Tidy(Resume(w))
  {
    hide Inv, Tidy, Resume, Failed;
    ResumeStepped(w);
    if w.pc.Idle? {
      ResumeStays(w);
    } else if !Live(w.o, w.pc.job) {
      AbandonedStepIsInert(w, Answer);
      SameTidy(w, Resume(w));
    } else if Resume(w) == Failed(w) {
      FailedFrame(w);
      SameTidy(w, Failed(w));
    } else {
      match w.pc {
        case PutObject(_, _, _, _) => AnswerPutTidy(w, h);
        case Recorded(_, _, _) => RecordedTidy(w, h);
        case GetFile(_, _, _, _) => FileRead(w); SameTidy(w, Resume(w));
        case PutManifest(_, _) => ManifestTidy(w, h);
        case _ => OtherTidy(w, h);
      }
    }
  }

  lemma FileRead(w: World)
    requires w.pc.GetFile? && Resume(w) != Failed(w)
    ensures Resume(w) == w.(pc := Resume(w).pc)
  {
    hide Failed, ReadVerified, Rows, Finish, HasManifest, HasObject, Live, ManifestFor, ObjectsOf, PutAt, Save, Saved;
  }

  lemma MutateTidy(w: World, h: History, content: Content, bucket: map<string, Bytes>)
    requires Inv(w, h) && Tidy(w)
    ensures Tidy(Mutate(w, content, bucket))
  {
    hide ArchivesHold, Running, Holding, JobTidy;
  }

  lemma EventTidy(w: World, h: History, ev: Event)
    requires Own(w, ev)
    requires Inv(w, h) && Tidy(w)
    ensures Tidy(Apply(w, ev))
  {
    hide Inv, Tidy, WellKept, Schema, Start, Land, Resume, Failed, Mutate;
    if IsRequest(ev) {
      RequestQuiet(w, ev);
      NewsTidy(w, Apply(w, ev));
    } else {
      match ev {
        case StartStep => if w.pc.Idle? && w.o.job.Some? { StartTidy(w, h); } else { StartIdles(w); }
        case Effect => LandTidy(w, h);
        case Answer => ResumeTidy(w, h);
        case Error => FailedTidy(w);
        case Crash => SameTidy(w, w.(pc := Idle));
        case StoreGrew(key, blob) => if key !in w.store { WriteTidy(w, h, key, blob); }
        case TimePassed(ms) => SameTidy(w, w.(now := w.now + ms));
        case Request(content, bucket) => MutateTidy(w, h, content, bucket);
        case _ =>
      }
    }
  }

  lemma FailedTidy(w: World)
    requires Tidy(w)
    ensures Tidy(Failed(w))
  {
    hide Tidy;
    SameTidy(w, Failed(w));
  }

  lemma OwnNext(w: World, h: History, evs: seq<Event>)
    requires evs != [] && OwnWritesOnly(w, h, evs)
    ensures Own(w, evs[0])
    ensures var w1 := Apply(w, evs[0]); OwnWritesOnly(w1, Remember(h, w, w1), evs[1..])
  {
    hide Apply, Remember, Own;
    assert evs[..0] == [];
    var w1 := Apply(w, evs[0]);
    var rest := evs[1..];
    forall k | 0 <= k < |rest| ensures Own(Run(w1, Remember(h, w, w1), rest[..k]).0, rest[k]) {
      assert evs[..k + 1][1..] == rest[..k];
      assert Own(Run(w, h, evs[..k + 1]).0, evs[k + 1]);
    }
  }

  lemma {:induction false} RunTidy(w: World, h: History, evs: seq<Event>)
    requires OwnWritesOnly(w, h, evs)
    requires Inv(w, h) && Tidy(w)
    ensures Tidy(Run(w, h, evs).0)
    decreases |evs|
  {
    hide Inv, Tidy, Apply, Remember, OwnWritesOnly, Own;
    if evs != [] {
      OwnNext(w, h, evs);
      EventKept(w, h, evs[0]);
      EventTidy(w, h, evs[0]);
      RunTidy(Apply(w, evs[0]), Remember(h, w, Apply(w, evs[0])), evs[1..]);
    }
  }

  /** Reached with nobody else writing under the ids this resource was given. */
  ghost predicate ReachableByOwnWrites(w: World, h: History) {
    exists w0, evs :: Init(w0) && IdsTaken(w0.store, w0.nextId) && OwnWritesOnly(w0, NOTHING_YET, evs)
                      && Run(w0, NOTHING_YET, evs) == (w, h)
  }

  lemma OwnWritesTidy(w: World, h: History)
    requires ReachableByOwnWrites(w, h)
    ensures Reachable(w, h) && Tidy(w)
  {
    hide Inv, Init, Run, OwnWritesOnly, JobTidy, IdsTaken;
    var w0, evs :| Init(w0) && IdsTaken(w0.store, w0.nextId) && OwnWritesOnly(w0, NOTHING_YET, evs)
                   && Run(w0, NOTHING_YET, evs) == (w, h);
    InitHolds(w0);
    NoJobYet(w0);
    RunTidy(w0, NOTHING_YET, evs);
  }

  lemma NoJobYet(w: World)
    requires Init(w)
    ensures w.o.job.None?
  {
  }

  // ---- Backups end ----

  lemma DueUnique(c: Content, all: seq<TableName>, bucket: map<string, Bytes>, j: Job,
    blob: Blob, detail: Detail, cursor: int, blob': Blob, detail': Detail, cursor': int)
    requires Due(c, all, bucket, j, blob, detail, cursor) && Due(c, all, bucket, j, blob', detail', cursor')
    ensures blob == blob'
  {
    hide SnapshotRows;
  }

  /** No put of a tidy backup finds its key taken by something else. */
  lemma TidyIsFree(w: World, h: History)
    requires LiveStep(w)
    requires Inv(w, h) && Tidy(w)
    ensures !Occupied(w)
  {
    hide Inv, Due, AllTables, WellKept, SnapshotOf, Covered, LiveStep, ArchivesHold;
    if PutOf(w.pc).Some? && PutOf(w.pc).value.0 in w.store {
      BackupStep(w, h);
      StepKnows(w, h);
      var j := w.o.job.value;
      if w.pc.PutObject? {
        var blob := w.store[PutOf(w.pc).value.0];
        var all := AllTables(w.o.record.kind, w.o.content);
        var detail, cursor :| Due(w.o.content, all, w.bucket, j, blob, detail, cursor);
        DueUnique(w.o.content, all, w.bucket, j, blob, detail, cursor, w.pc.blob, w.pc.detail, w.pc.cursor);
      }
    }
  }

  lemma AloneIsOwn(w: World, h: History, evs: seq<Event>)
    requires Alone(w, h, evs)
    ensures OwnWritesOnly(w, h, evs)
  {
    hide Run;
  }

  /** A backup left alone ends, with a complete verified archive of the resource's
      content, or it gets stuck at a file that is missing or has the wrong size, or
      at an archive key somebody else has written. When nobody has, it ends exactly
      if every file it is still to read is there with its size. */
  lemma BackupCompletes(w: World, h: History) returns (evs: seq<Event>)
    requires BackupJob(w) && Unabandoned(w)
    requires Reachable(w, h)
    ensures Alone(w, h, evs)
    ensures var r := Run(w, h, evs).0;
      var j := w.o.job.value;
      && (r.o.job.None? ==>
            && r.o.record.state == (if j.action == Archive then Active else Deleted)
            && j.id in r.o.archives && ArchiveHolds(r.store, r.o.archives[j.id], SnapshotOf(w.o.content, w.bucket))
            && Readable(w))
      && (r.o.job.Some? ==> Stuck(r) && ((Unreadable(r) && !Readable(w)) || Occupied(r)))
      && (Tidy(w) ==> (r.o.job.None? <==> Readable(w)) && (r.o.job.Some? ==> !Occupied(r)))
  {
    hide Reachable, Inv, Run, Readable, Unreadable, Occupied, Tidy, WellKept, SnapshotOf, ArchiveHolds, Alone, Holds;
    ReachableHolds(w, h);
    StoredJob(w, h);
    var id, snap := w.o.job.value.id, SnapshotOf(w.o.content, w.bucket);
    FrozenSnapshot(w, h, w.o.job.value);
    evs := JobComesOut(w, h);
    var (r, h') := Run(w, h, evs);
    RunReaches(w, h, evs);
    ReachableHolds(r, h');
    SnapsPersist(w, h, evs);
    if id in r.o.archives { ArchiveThere(r, h', id, snap); }
    if Tidy(w) && r.o.job.Some? {
      AloneIsOwn(w, h, evs);
      RunTidy(w, h, evs);
      TidyIsFree(r, h');
    }
  }

  ghost predicate Snapped(h: History, id: nat, snap: Snapshot) { id in h.snaps && h.snaps[id] == snap }

  lemma FrozenSnapshot(w: World, h: History, j: Job)
    requires w.o.job == Some(j) && BackingUp(j.stage)
    requires Inv(w, h)
    ensures Snapped(h, j.id, SnapshotOf(w.o.content, w.bucket))
  {
    hide Inv, Covered, WellKept, SnapshotOf, ArchivesHold;
    StoredJob(w, h);
  }

  lemma ArchiveThere(w: World, h: History, id: nat, snap: Snapshot)
    requires id in w.o.archives && Snapped(h, id, snap)
    requires Inv(w, h)
    ensures HoldsArchive(w.store, w.o.archives, id, snap)
  {
    hide ArchiveHolds, WellKept, Holding, Running, Ids, Shape;
  }

  /** In particular, as long as only the resource's own steps write its archives, a
      backup left alone ends exactly if the files it is still to read can be read. */
  lemma OwnBackupCompletes(w: World, h: History) returns (evs: seq<Event>)
    requires BackupJob(w) && Unabandoned(w)
    requires ReachableByOwnWrites(w, h)
    ensures Alone(w, h, evs)
    ensures Run(w, h, evs).0.o.job.None? <==> Readable(w)
    ensures Run(w, h, evs).0.o.job.Some? ==> Unreadable(Run(w, h, evs).0)
  {
    hide *;
    OwnWritesTidy(w, h);
    evs := BackupCompletes(w, h);
  }

  /** So a wiki with a finished attachment whose file is missing is never archived: a
      backup begun on it and left alone stops at that file, or at one before it. */
  lemma MissingFileStopsBackup(w: World, rowid: nat) returns (evs: seq<Event>)
    requires IdsTaken(w.store, w.nextId) && !Overdue(w.o.record, w.now)
    requires var ready := ReadyOnly(Rows(w.o.content, Attachments)); rowid in ready && ready[rowid].key !in w.bucket
    requires Init(w)
    ensures var w1 := Apply(w, AdminBegin(Archive, 0));
      var h1 := Remember(NOTHING_YET, w, w1);
      && w1.o.job.Some? && Alone(w1, h1, evs)
      && var r := Run(w1, h1, evs).0; r.o.job.Some? && Unreadable(r)
  {
    hide Run, Alone, Unreadable, Readable, Remember, ReachableByOwnWrites, Apply, ReadyOnly, Rows, Init, Overdue;
    var ev := AdminBegin(Archive, 0);
    var w1 := Apply(w, ev);
    var h1 := Remember(NOTHING_YET, w, w1);
    ArchiveBegins(w, rowid);
    OneEvent(w, NOTHING_YET, ev);
    BeganByOwnWrites(w, ev);
    evs := OwnBackupCompletes(w1, h1);
  }

  lemma ArchiveBegins(w: World, rowid: nat)
    requires !Overdue(w.o.record, w.now)
    requires var ready := ReadyOnly(Rows(w.o.content, Attachments)); rowid in ready && ready[rowid].key !in w.bucket
    requires Init(w)
    ensures var w1 := Apply(w, AdminBegin(Archive, 0));
      w1.o.job.Some? && w1.o.job.value.stage == Snapshots && w1.pc.Idle? && !Readable(w1)
  {
    hide Overdue, WellKept, Schema;
    var w1 := Apply(w, AdminBegin(Archive, 0));
    assert StillToRead(w1.o.job.value, rowid) && !Sound(w1.o.content, w1.bucket, rowid);
  }

  lemma BeganByOwnWrites(w: World, ev: Event)
    requires IdsTaken(w.store, w.nextId) && !ev.StoreGrew?
    requires Init(w)
    ensures ReachableByOwnWrites(Apply(w, ev), Remember(NOTHING_YET, w, Apply(w, ev)))
  {
    hide Apply, Remember, Init, IdsTaken;
    OneEvent(w, NOTHING_YET, ev);
    assert OwnWritesOnly(w, NOTHING_YET, [ev]);
  }
}
