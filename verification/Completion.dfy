/** Left alone, every restore and every erase comes to its end, and every backup
    does exactly when the files it is still to read can be read. */
module Completion {
  import opened Options
  import opened Tables
  import opened Backup
  import opened Lifecycle
  import opened LifecycleInvariant
  import opened LifecycleProofs
  import opened LifecycleSteps
  import opened LifecycleTheorems
  import opened LifecycleResults
  import opened LifecycleReady
  import opened Progress

  /** The running step is waiting for something that does not come. */
  ghost predicate Stuck(w: World) {
    !w.pc.Idle? && Apply(w, NextEvent(w)) == Failed(w)
  }

  /** A file the backup reads is missing or has the wrong size. */
  ghost predicate Unreadable(w: World) {
    w.pc.GetFile? && !Sound(w.o.content, w.bucket, w.pc.rowid)
  }

  /** The archive key of the running put holds something else. */
  ghost predicate Occupied(w: World) {
    PutOf(w.pc).Some? && PutOf(w.pc).value.0 in w.store && w.store[PutOf(w.pc).value.0] != PutOf(w.pc).value.1
  }

  // ---- What does not fail ----

  /** Only a failure counts an attempt. */
  lemma CalmIsNotFailed(w: World, w': World)
    requires LiveStep(w) && w'.o.record.attempts == w.o.record.attempts
    ensures w' != Failed(w)
  {
  }

  lemma MoversCalm(w: World)
    ensures forall j :: Saved(w, j).o.record.attempts == w.o.record.attempts
    ensures forall j, c :: Saved(w.(o := w.o.(content := c)), j).o.record.attempts == w.o.record.attempts
    ensures forall j, state, clear :: Finish(w, j, state, clear).o.record.attempts == w.o.record.attempts
    ensures Land(w).o == w.o
  {
  }

  // Erase

  lemma EraseWorks(w: World, h: History)
    requires (w.pc.EraseFile? || w.pc.FileErased? || w.pc.PutFile?) && LiveStep(w)
    requires Inv(w, h)
    ensures !Stuck(w)
  {
    hide Inv, Failed, Rows, Finish, Land, LiveStep, Saved;
    MoversCalm(w);
    CalmIsNotFailed(w, Apply(w, NextEvent(w)));
  }

  // Restore: reading rows back

  /** A listing is determined by the rows it lists. */
  lemma {:induction false} ListingIs(m: Table<Row>, after: int, s: seq<Listed<Row>>)
    requires Ascending(s, after) && FromTable(m, s)
    requires forall k | k in Above(m, after) :: exists i :: 0 <= i < |s| && s[i].rowid == k
    ensures Listing(m, after) == s
    decreases |s|
  {
    if s == [] {
      assert Above(m, after) == {};
    } else {
      var k := s[0].rowid;
      assert k in Above(m, after);
      assert Least(m, after) == k;
      forall r | r in Above(m, k) ensures exists i :: 0 <= i < |s[1..]| && s[1..][i].rowid == r {
        assert r in Above(m, after);
        var i :| 0 <= i < |s| && s[i].rowid == r;
        assert s[1..][i - 1].rowid == r;
      }
      ListingIs(m, k, s[1..]);
    }
  }

  /** Where a row between the ends of a stretch of an ascending listing is listed. */
  lemma InStretch(all: seq<Listed<Row>>, n: nat, end: nat, i: nat)
    requires Ascending(all, -1) && n < end <= |all| && i < |all|
    requires all[n].rowid <= all[i].rowid <= all[end - 1].rowid
    ensures n <= i < end
  {
  }

  lemma StretchAscends(m: Table<Row>, all: seq<Listed<Row>>, n: nat, end: nat)
    requires Ascending(all, -1) && FromTable(m, all) && n < end <= |all|
    ensures Ascending(all[n..end], -1) && FromTable(Part(m, all[n].rowid, all[end - 1].rowid), all[n..end])
  {
    var rows := all[n..end];
    assert forall i | 0 <= i < |rows| :: rows[i] == all[n + i];
  }

  /** A chunk of a table's listing is what the table has between its ends. */
  lemma ChunkIsBetween(m: Table<Row>, a: seq<Listed<Row>>, rows: seq<Listed<Row>>, b: seq<Listed<Row>>)
    requires Listing(m, -1) == a + rows + b
    ensures Between(m, rows) == rows
  {
    hide Listing, Ascending, FromTable;
    if rows != [] {
      var all, n, end := a + rows + b, |a|, |a| + |rows|;
      ListingExact(m, -1);
      assert all[n..end] == rows;
      assert all[n] == rows[0] && all[end - 1] == rows[|rows| - 1];
      StretchAscends(m, all, n, end);
      var part := Part(m, rows[0].rowid, rows[|rows| - 1].rowid);
      forall k | k in Above(part, -1) ensures exists i :: 0 <= i < |rows| && rows[i].rowid == k {
        assert k in Above(m, -1);
        var i :| 0 <= i < |all| && all[i].rowid == k;
        InStretch(all, n, end, i);
        assert all[n..end][i - n] == all[i];
      }
      ListingIs(part, -1, rows);
    }
  }

  /** Every chunk of a complete backup is a stretch of its table's listing. */
  lemma ChunkOf(objects: seq<ObjectEntry>, i: nat, t: TableName) returns (a: seq<Listed<Row>>, b: seq<Listed<Row>>)
    requires i < |objects|
    ensures RowsOf(objects, t) == a + EntryRows(objects[i], t) + b
  {
    hide *;
    AppendNext(objects, i);
    RowsPrefix(objects, i + 1, t);
    a := RowsOf(objects[..i], t);
    b := RowsOf(objects, t)[|RowsOf(objects[..i + 1], t)|..];
  }

  /** The manifest of a restore job describes what its archive was taken from. */
  ghost predicate Backed(w: World, h: History, j: Job, m: Manifest) {
    && ManifestFor(w.store, j) == Some(m) && j.receipt.Some? && j.receipt.value.archive in h.snaps
    && var snap := h.snaps[j.receipt.value.archive];
       && AllStored(w.store, m.archive, m.objects) && Describes(m.objects, snap) && Solid(m.objects, snap.files)
       && forall t :: t in m.tables <==> t in snap.content
  }

  /** The manifest a waiting restore step reads, and the archive it belongs to. */
  lemma RestoreKnows(w: World, h: History, j: Job, m: Manifest)
    requires (w.pc == NeedObject(j, m) || w.pc == NeedFile(j, m)) && LiveStep(w)
    requires Inv(w, h) && Ready(w, h)
    ensures w.o.job == Some(j) && RestoringStage(j.stage) && j.index < |m.objects|
    ensures Backed(w, h, j, m) && Rebuilt(w.o.content, w.bucket, m.objects, j)
    ensures j.stage == RestoreWrite || j.stage == RestoreCheck ==> RoomMade(w.store, j, w.o.content)
  {
    hide Inv, WellKept, Covered, SnapshotOf, Backed, Rebuilt, RoomMade, ArchiveHolds, LiveStep, ManifestFor,
         ObjectsOf, Schema, ArchivesHold, RestoringStage;
    StepKnows(w, h);
    RestoreStep(w, h);
    StoredReady(w, h);
    ArchiveKnown(w, h, j, m);
  }

  lemma ArchiveKnown(w: World, h: History, j: Job, m: Manifest)
    requires HasReceipt(w.o.archives, j) && j.receipt.value.archive in h.snaps && ManifestFor(w.store, j) == Some(m)
    requires ArchiveHolds(w.store, j.receipt.value, h.snaps[j.receipt.value.archive])
    requires Ready(w, h)
    ensures Backed(w, h, j, m)
  {
    hide AllStored, TablesFirst, Describes, Solid, Schema, JobReady, StepSure;
    assert SolidArchive(w.store, w.o.archives[j.receipt.value.archive], h.snaps[j.receipt.value.archive].files);
  }

  /** The table a chunk belongs to is one of the manifest's. */
  lemma TableNamed(m: Manifest, snap: Snapshot, i: nat)
    requires i < |m.objects| && m.objects[i].detail.TableDetail?
    requires Describes(m.objects, snap) && Solid(m.objects, snap.files)
    requires forall t :: t in m.tables <==> t in snap.content
    ensures m.objects[i].detail.table in m.tables
  {
    hide Listing, RowsOf, FilesOf;
    var e := m.objects[i];
    var t := e.detail.table;
    assert SolidEntry(e, snap.files);
    var a, b := ChunkOf(m.objects, i, t);
    assert RowsOf(m.objects, t) == Listing(Rows(snap.content, t), -1);
    var k :| k in Above(Rows(snap.content, t), -1);
  }

  /** During the check every chunk compares equal. */
  lemma ChecksEqual(c: Content, m: Manifest, snap: Snapshot, i: nat)
    requires i < |m.objects| && m.objects[i].detail.TableDetail? && Typed(m.objects[i])
    requires Written(c, m.objects) && Describes(m.objects, snap)
    ensures var t := m.objects[i].detail.table;
      Between(Rows(c, t), m.objects[i].hash.preimage.rows) == m.objects[i].hash.preimage.rows
  {
    hide Between, RowsOf, FilesOf, Written;
    var t := m.objects[i].detail.table;
    WrittenIsSnapshot(c, m.objects, snap);
    var a, b := ChunkOf(m.objects, i, t);
    ChunkIsBetween(Rows(c, t), a, m.objects[i].hash.preimage.rows, b);
  }

  lemma ObjectRead(w: World, h: History, j: Job, m: Manifest, e: ObjectEntry)
    requires w.pc == NeedObject(j, m) && LiveStep(w) && Lists(m, j.index, e)
    requires Inv(w, h) && Ready(w, h)
    ensures Typed(e) && Resume(w) == HasObject(w, j, e, e.hash.preimage)
  {
    hide Inv, Ready, HasObject, Resume, Describes, Solid, Rebuilt, RoomMade;
    RestoreKnows(w, h, j, m);
    assert EntryStored(w.store, m.archive, j.index, e);
    NeedObjectIs(w, j, m, e);
  }

  lemma StepIsSure(w: World, h: History)
    requires LiveStep(w)
    requires Ready(w, h)
    ensures StepSure(w.pc, w.o.job.value.stage, w.o.content, w.bucket)
  {
    hide Schema, ArchivesSolid, JobReady, StepSure;
  }

  ghost predicate ComparesEqual(c: Content, e: ObjectEntry) {
    && e.detail.TableDetail? && Typed(e)
    && Between(Rows(c, e.detail.table), e.hash.preimage.rows) == e.hash.preimage.rows
  }

  lemma RowsWork(w: World, h: History, j: Job, m: Manifest, e: ObjectEntry)
    requires w.pc == NeedObject(j, m) && LiveStep(w) && Lists(m, j.index, e)
    requires Inv(w, h) && Ready(w, h)
    ensures RestoringStage(j.stage)
    ensures e.detail.TableDetail? && j.stage == RestoreWrite ==> GoesInto(e, w.o.content)
    ensures j.stage == RestoreCheck ==> ComparesEqual(w.o.content, e)
  {
    hide Inv, Ready, Describes, Solid, Written, FilesOf, AllStored, Between, Rows, Typed, HasObject, LiveStep,
         ManifestFor, Resume;
    RestoreKnows(w, h, j, m);
    ObjectRead(w, h, j, m, e);
    StepIsSure(w, h);
    var snap := h.snaps[j.receipt.value.archive];
    if e.detail.TableDetail? {
      TableNamed(m, snap, j.index);
      if j.stage == RestoreCheck { ChecksEqual(w.o.content, m, snap, j.index); }
    }
  }

  lemma ObjectWorks(w: World, h: History)
    requires w.pc.NeedObject? && LiveStep(w)
    requires Inv(w, h) && Ready(w, h)
    ensures !Stuck(w)
  {
    hide Inv, Ready, Failed, Resume, Between, Rows, WriteEntry, Saved;
    var j, m := w.pc.job, w.pc.manifest;
    RestoreKnows(w, h, j, m);
    var e := m.objects[j.index];
    ObjectRead(w, h, j, m, e);
    RowsWork(w, h, j, m, e);
    MoversCalm(w);
    CalmIsNotFailed(w, Resume(w));
  }

  /** During the check every file is in the bucket with the hash recorded. */
  lemma FileIsBack(w: World, h: History, j: Job, m: Manifest, e: ObjectEntry)
    requires Backed(w, h, j, m) && Rebuilt(w.o.content, w.bucket, m.objects, j) && j.stage == RestoreCheck
    requires Lists(m, j.index, e) && e.detail.FileDetail?
    ensures e.detail.file in w.bucket && Sha256(FileBlob(w.bucket[e.detail.file])) == e.hash
  {
    hide ManifestFor, Written, AllStored, FilesOf, RowsOf, Listing, Rows;
    var snap := h.snaps[j.receipt.value.archive];
    assert SolidEntry(m.objects[j.index], snap.files);
  }

  lemma FileWorks(w: World, h: History)
    requires w.pc.NeedFile? && LiveStep(w)
    requires Inv(w, h) && Ready(w, h)
    ensures !Stuck(w)
  {
    hide Inv, Ready, Failed, Backed, Rebuilt, RoomMade, Saved, Finish, ManifestFor, HasManifest, HasObject, ReadVerified;
    var j, m := w.pc.job, w.pc.manifest;
    RestoreKnows(w, h, j, m);
    StepIsSure(w, h);
    StepKnows(w, h);
    FileIsBack(w, h, j, m, m.objects[j.index]);
    MoversCalm(w);
    CalmIsNotFailed(w, Resume(w));
  }

  lemma ManifestReadWorks(w: World, h: History)
    requires (w.pc.NeedManifest? || w.pc.FilePut?) && LiveStep(w)
    requires Inv(w, h)
    ensures !Stuck(w)
  {
    hide Inv, Failed, ManifestFor, Rebuilt, RoomFor, Saved, Finish, WellKept, ArchiveHolds;
    RestoreStep(w, h);
    MoversCalm(w);
    CalmIsNotFailed(w, Resume(w));
  }

  // Backup

  lemma PutWorks(w: World)
    requires PutOf(w.pc).Some? && LiveStep(w)
    ensures Stuck(w) <==> Occupied(w)
  {
    hide Failed, Saved, Finish, PutAt;
    MoversCalm(w);
    if Unwritten(w) {
      CalmIsNotFailed(w, Apply(w, NextEvent(w)));
    } else if !Occupied(w) {
      if w.pc.PutManifest? {
        AnswerManifestIs(w, w.pc.job, w.pc.manifest);
        MoversCalm(Receipted(w, w.pc.job, w.pc.manifest));
      } else {
        AnswerObjectIs(w, w.pc.job, w.pc.blob, w.pc.detail, w.pc.cursor);
      }
      CalmIsNotFailed(w, Resume(w));
    }
  }

  lemma ReadsWork(w: World, h: History)
    requires (w.pc.GetFile? || w.pc.Recorded?) && LiveStep(w)
    requires Inv(w, h) && Ready(w, h)
    ensures Stuck(w) <==> Unreadable(w)
  {
    hide Inv, Ready, Failed, Saved, AllTables, WellKept, SnapshotOf, Covered, Due, ManifestFor;
    StepKnows(w, h);
    StepIsSure(w, h);
    MoversCalm(w);
    if !Unreadable(w) { CalmIsNotFailed(w, Resume(w)); }
  }

  /** A step left alone gets stuck exactly at a file it cannot read, or at an
      archive key that holds something else. */
  lemma StuckMeans(w: World, h: History)
    requires Unabandoned(w)
    requires Inv(w, h) && Ready(w, h)
    ensures Stuck(w) <==> Unreadable(w) || Occupied(w)
  {
    hide Inv, Ready, Failed, Apply, Sound;
    match w.pc {
      case Idle =>
      case EraseFile(_, _) => EraseWorks(w, h);
      case PutFile(_, _, _) => EraseWorks(w, h);
      case FileErased(_, _) => EraseWorks(w, h);
      case NeedObject(_, _) => ObjectWorks(w, h);
      case NeedFile(_, _) => FileWorks(w, h);
      case NeedManifest(_) => ManifestReadWorks(w, h);
      case FilePut(_) => ManifestReadWorks(w, h);
      case PutObject(_, _, _, _) => PutWorks(w);
      case PutManifest(_, _) => PutWorks(w);
      case GetFile(_, _, _, _) => ReadsWork(w, h);
      case Recorded(_, _, _) => ReadsWork(w, h);
    }
  }

  // ---- The files a backup is still to read ----

  predicate StillToRead(j: Job, rowid: int) {
    j.stage == Snapshots || (j.stage == Files && j.cursor < rowid)
  }

  /** Every file still to be read is there, with the size its row gives. */
  ghost predicate Readable(w: World) {
    w.o.job.Some? ==>
      forall k | k in ReadyOnly(Rows(w.o.content, Attachments)) && StillToRead(w.o.job.value, k) ::
        Sound(w.o.content, w.bucket, k)
  }

  /** The job moves on to others of the same content. */
  lemma SameToRead(w: World, w': World)
    requires w.o.job.Some? && w'.o.job.Some? && w'.o.content == w.o.content && w'.bucket == w.bucket
    requires forall k | k in ReadyOnly(Rows(w.o.content, Attachments)) ::
               StillToRead(w.o.job.value, k) == StillToRead(w'.o.job.value, k) || Sound(w.o.content, w.bucket, k)
    ensures Readable(w) <==> Readable(w')
  {
    hide StillToRead, Sound;
  }

  lemma NothingToRead(w: World)
    requires w.o.job.Some? ==> w.o.job.value.stage != Snapshots && w.o.job.value.stage != Files
    ensures Readable(w)
  {
  }

  lemma StartReads(w: World, h: History)
    requires w.pc.Idle? && (JobAt(w, Snapshots) || JobAt(w, Files))
    requires Inv(w, h)
    ensures Readable(w) <==> Readable(Start(w))
  {
    hide Inv, Start, WellKept, Covered, SnapshotOf, SnapshotRows, AllTables, Sound, RestoreOk, ReadyOnly, Rows,
         SingleMeta;
    StoredJob(w, h);
    var j := w.o.job.value;
    if j.stage == Snapshots {
      StartSnapshotsIs(w);
    } else {
      MetaOf(w.o.record.kind, w.o.content, w.bucket);
      StartFilesIs(w);
      var ready := ReadyOnly(Rows(w.o.content, Attachments));
      assert forall k | k in ready && j.cursor < k :: k in Above(ready, j.cursor);
    }
    SameToRead(w, Start(w));
  }

  lemma RecordedReads(w: World, h: History)
    requires w.pc.Recorded? && LiveStep(w)
    requires Inv(w, h) && Ready(w, h)
    ensures Readable(w) <==> Readable(Resume(w))
  {
    hide Inv, Ready, WellKept, Covered, SnapshotOf, SnapshotRows, AllTables, Sound, ManifestFor;
    StepKnows(w, h);
    StepIsSure(w, h);
    var j := w.o.job.value;
    var ready := ReadyOnly(Rows(w.o.content, Attachments));
    assert forall k | k in ready && j.cursor < k :: k in Above(ready, j.cursor);
    SameToRead(w, Resume(w));
  }

  /** No step of a job left alone changes whether its files can be read. */
  lemma NextReads(w: World, h: History)
    requires Unabandoned(w) && !Stuck(w) && Nearer(w, Apply(w, NextEvent(w)))
    requires Inv(w, h) && Ready(w, h)
    ensures Readable(w) <==> Readable(Apply(w, NextEvent(w)))
  {
    hide Inv, Ready, Readable, Start, Resume, Less, Left;
    var w' := Apply(w, NextEvent(w));
    var j := w.o.job.value;
    if j.stage == Snapshots || j.stage == Files {
      if !w.pc.Idle? { BackupWaits(w, h); }
      if Unwritten(w) {
        SameToRead(w, w');
      } else if w.pc.Idle? {
        StartReads(w, h);
      } else if w.pc.Recorded? {
        RecordedReads(w, h);
      } else {
        WaitReads(w);
      }
    } else {
      NothingToRead(w);
      NothingToRead(w');
    }
  }

  lemma BackupWaits(w: World, h: History)
    requires LiveStep(w)
    requires JobAt(w, Snapshots) || JobAt(w, Files)
    requires Inv(w, h)
    ensures w.pc.PutObject? || w.pc.Recorded? || w.pc.GetFile?
  {
    hide Inv, Due, ManifestFor, Holds, AllTables, Rows, ArchivesHold;
    StepKnows(w, h);
  }

  lemma WaitReads(w: World)
    requires (w.pc.PutObject? || w.pc.GetFile?) && LiveStep(w) && Resume(w) != Failed(w)
    ensures Readable(w) <==> Readable(Resume(w))
  {
    hide Failed, Sound, StillToRead, PutAt, ReadVerified, Rows, ReadyOnly;
    SameToRead(w, Resume(w));
  }

  // ---- The end of a job ----

  /** The steps of a job left alone: each event is the running step's next one. */
  ghost predicate Alone(w: World, h: History, evs: seq<Event>) {
    forall k | 0 <= k < |evs| :: evs[k] == NextEvent(Run(w, h, evs[..k]).0)
  }

  lemma AloneFirst(w: World, h: History, rest: seq<Event>)
    requires var ev := NextEvent(w); Alone(Apply(w, ev), Remember(h, w, Apply(w, ev)), rest)
    ensures Alone(w, h, [NextEvent(w)] + rest)
    ensures var ev := NextEvent(w); Run(w, h, [ev] + rest) == Run(Apply(w, ev), Remember(h, w, Apply(w, ev)), rest)
  {
    hide Apply, Remember, NextEvent;
    var evs := [NextEvent(w)] + rest;
    assert evs[1..] == rest;
    forall k | 0 <= k < |evs| ensures evs[k] == NextEvent(Run(w, h, evs[..k]).0) {
      if k > 0 { assert evs[..k][1..] == rest[..k - 1]; }
    }
  }

  /** The next event of a running job begins no other. */
  lemma NextBegins(w: World, h: History)
    requires Inv(w, h)
    ensures Remember(h, w, Apply(w, NextEvent(w))) == h
  {
    hide Inv, Apply, Remember;
    StepBeginsNothing(w, h, NextEvent(w));
  }

  lemma StartGoesOn(w: World, h: History)
    requires RestoreJob(w) && w.pc.Idle?
    requires Inv(w, h)
    ensures Start(w).o == w.o
  {
    hide Inv, Holds, Start, ArchivesHold, RestoringStage;
    StoredJob(w, h);
    StartWaits(w);
  }

  lemma RestoreEndsBack(w: World, h: History)
    requires RestoreJob(w) && Unabandoned(w)
    requires Apply(w, NextEvent(w)).o.job.None?
    requires Reachable(w, h)
    ensures BroughtBack(w.o.job, h, Apply(w, NextEvent(w)))
  {
    hide Reachable, Inv, Start, Resume, Rows, Finish, Land, Saved, Unabandoned;
    ReachableHolds(w, h);
    if w.pc.Idle? { StartGoesOn(w, h); }
    MoversCalm(w);
    RestoreGivesBack(w, h);
  }

  /** How a job left alone can come out. */
  ghost predicate ComesOut(w: World, h: History, r: World) {
    && w.o.job.Some?
    && var j := w.o.job.value;
       if r.o.job.None? then Ended(j, r) && Readable(w) && (j.action == Restore ==> BroughtBack(w.o.job, h, r))
       else Stuck(r) && LiveStep(r) && BackingUp(j.stage) && ((Unreadable(r) && !Readable(w)) || Occupied(r))
  }

  lemma StuckReads(w: World, h: History)
    requires Unabandoned(w) && Stuck(w)
    requires Inv(w, h) && Ready(w, h)
    ensures BackupJob(w)
    ensures (Unreadable(w) && !Readable(w)) || Occupied(w)
  {
    hide Inv, Ready, Apply, Failed, Sound, Covered, WellKept, SnapshotOf, AllTables;
    StuckMeans(w, h);
    BackupStep(w, h);
    StepKnows(w, h);
    if Unreadable(w) {
      StepIsSure(w, h);
      assert StillToRead(w.o.job.value, w.pc.rowid);
    }
  }

  lemma ComesOutNext(w: World, h: History, w1: World, r: World)
    requires Nearer(w, w1) && (Readable(w) <==> Readable(w1))
    requires ComesOut(w1, h, r)
    ensures ComesOut(w, h, r)
  {
    hide Readable, Unreadable, Occupied, Stuck, Rows, Less, Left;
  }

  lemma JobComesOut(w: World, h: History) returns (evs: seq<Event>)
    requires Unabandoned(w)
    requires Reachable(w, h)
    ensures Alone(w, h, evs) && ComesOut(w, h, Run(w, h, evs).0)
    decreases Left(w).stage, Left(w).tables, Left(w).items, Left(w).calls, Left(w).puts
  {
    hide Reachable, Inv, Ready, Apply, NextEvent, Remember, Left, Failed, Readable, Unreadable, Occupied, BroughtBack, Alone;
    ReachableHolds(w, h);
    ReachableReady(w, h);
    if Stuck(w) {
      evs := [];
      StuckReads(w, h);
      NobodyMoves(w, h);
    } else {
      var w1 := Apply(w, NextEvent(w));
      JobsProgress(w, h);
      NextReads(w, h);
      NextBegins(w, h);
      RunReaches(w, h, [NextEvent(w)]);
      OneEvent(w, h, NextEvent(w));
      if w1.o.job.None? {
        evs := [NextEvent(w)];
        EndsNow(w, h);
        NobodyMoves(w1, h);
        AloneFirst(w, h, []);
        assert evs == [NextEvent(w)] + [];
      } else {
        NextStaysLive(w);
        var rest := JobComesOut(w1, h);
        evs := [NextEvent(w)] + rest;
        AloneFirst(w, h, rest);
        ComesOutNext(w, h, w1, Run(w1, h, rest).0);
      }
    }
  }

  lemma NobodyMoves(w: World, h: History)
    ensures Alone(w, h, [])
  {
    hide Run, NextEvent;
  }

  lemma EndsNow(w: World, h: History)
    requires Unabandoned(w)
    requires var w1 := Apply(w, NextEvent(w));
      w1.o.job.None? && Nearer(w, w1) && (Readable(w) <==> Readable(w1))
    requires Reachable(w, h)
    ensures ComesOut(w, h, Apply(w, NextEvent(w)))
  {
    hide Reachable, Apply, NextEvent, BroughtBack;
    if w.o.job.value.action == Restore { RestoreEndsBack(w, h); }
  }

  /** Every reachable restore, left alone, ends with the resource active and the
      rows and files of its archive back. */
  lemma RestoreCompletes(w: World, h: History) returns (evs: seq<Event>)
    requires RestoreJob(w) && Unabandoned(w)
    requires Reachable(w, h)
    ensures Alone(w, h, evs)
    ensures var r := Run(w, h, evs).0;
      r.o.job.None? && r.o.record.state == Active && BroughtBack(w.o.job, h, r)
  {
    hide Reachable, Inv, Run, Readable, Unreadable, Occupied, Stuck, BroughtBack, Holds, Alone, Unabandoned;
    ReachableHolds(w, h);
    StoredJob(w, h);
    evs := JobComesOut(w, h);
  }

  /** Every reachable erase, left alone, ends with the resource deleted and nothing
      of it left. */
  lemma EraseCompletes(w: World, h: History) returns (evs: seq<Event>)
    requires JobAt(w, Erase) && Unabandoned(w)
    requires Reachable(w, h)
    ensures Alone(w, h, evs)
    ensures var r := Run(w, h, evs).0;
      r.o.job.None? && r.o.record.state == Deleted && (forall t :: Rows(r.o.content, t) == map[]) && r.bucket == map[]
  {
    hide Reachable, Inv, Run, Readable, Unreadable, Occupied, Stuck, Holds, Rows, Alone;
    ReachableHolds(w, h);
    StoredJob(w, h);
    evs := JobComesOut(w, h);
    RunReaches(w, h, evs);
    DeletedLeavesNothing(Run(w, h, evs).0, Run(w, h, evs).1);
  }
}
