/** The lifecycle as the object that runs it: fields updated in place. What holds in
    every reachable state is the object's `Valid()`, and each method that answers a
    request or runs a part of a step keeps it. */
module ResourceLifecycles {
  import opened Options
  import opened Tables
  import opened Backup
  import opened Lifecycle
  import opened LifecycleInvariant
  import opened LifecycleProofs
  import opened LifecycleSteps
  import opened LifecycleFrames
  import opened LifecycleTheorems
  import opened LifecycleResults
  import opened LifecycleReady

  ghost predicate Healthy(w: World, h: History) {
    Inv(w, h) && Ready(w, h)
  }

  lemma EventHealthy(w: World, h: History, ev: Event)
    requires Healthy(w, h)
    ensures Healthy(Apply(w, ev), Remember(h, w, Apply(w, ev)))
  {
    hide Inv, Ready, Apply, Remember;
    EventKept(w, h, ev);
    EventReady(w, h, ev);
  }

  lemma BeginsNothing(w: World, h: History, ev: Event)
    requires ev.Effect? || ev.StoreGrew? || ev.TimePassed? || ev.Crash?
    requires Healthy(w, h)
    ensures Remember(h, w, Apply(w, ev)) == h
  {
    hide Inv, Ready, Apply, Remember;
    StepBeginsNothing(w, h, ev);
  }

  /** Parts of a step begin no job. */
  lemma StepHealthy(w: World, h: History)
    requires Healthy(w, h)
    ensures Healthy(Start(w), h) && Healthy(Resume(w), h) && Healthy(Failed(w), h)
  {
    hide Inv, Ready, Start, Resume, Failed;
    StartKept(w, h);
    ResumeKept(w, h);
    FailedKept(w, h);
    StartReady(w, h);
    ResumeReady(w, h);
    FailedReady(w, h);
  }

  lemma QuietHealthy(w: World, h: History, w': World)
    requires Quiet(w, w') && Inv(w', Remember(h, w, w'))
    requires Healthy(w, h)
    ensures Healthy(w', Remember(h, w, w'))
  {
    hide Inv, Ready, Quiet, Remember, Ids, Recalls;
    IdsOf(w, h);
    SnapsStay(w, h, w');
    QuietReady(w, h, w', Remember(h, w, w'));
  }

  /** A job may begin unless it restores from anything but a receipt of this resource. */
  ghost predicate Allowed(archives: map<nat, Receipt>, action: Action, reason: Reason, receipt: Option<Receipt>) {
    && (reason == Ttl ==> action == Delete || action == ArchiveDelete)
    && (action == Restore ==>
          receipt.Some? && receipt.value.archive in archives && archives[receipt.value.archive] == receipt.value)
  }

  lemma BeginHealthy(w: World, h: History, action: Action, reason: Reason, receipt: Option<Receipt>)
    requires Allowed(w.o.archives, action, reason, receipt)
    requires Healthy(w, h)
    ensures var w' := Begin(w, action, reason, receipt); Healthy(w', Remember(h, w, w'))
  {
    hide Inv, Ready, Begin, Quiet, Remember;
    BeginKept(w, h, action, reason, receipt);
    BeginQuiet(w);
    QuietHealthy(w, h, Begin(w, action, reason, receipt));
  }

  lemma CancelHealthy(w: World, h: History)
    requires Healthy(w, h)
    ensures Healthy(Cancel(w), Remember(h, w, Cancel(w)))
  {
    hide Inv, Ready, Cancel, Quiet, Remember;
    CancelKept(w, h);
    CancelQuiet(w);
    QuietHealthy(w, h, Cancel(w));
  }

  lemma RecordHealthy(w: World, h: History, r: Record, dirty: nat)
    requires r.kind == w.o.record.kind && r.state == w.o.record.state && r.version == w.o.record.version && 0 < dirty
    requires Healthy(w, h)
    ensures Healthy(w.(o := Save(w.o, r, dirty, w.now)), h)
  {
    hide Inv, Ready, Quiet, Save, Ids;
    RecordKept(w, h, r, dirty);
    SaveQuiet(w, r, dirty);
    IdsOf(w, h);
    QuietReady(w, h, w.(o := Save(w.o, r, dirty, w.now)), h);
  }

  lemma ReceiptsNamed(w: World, h: History)
    requires Healthy(w, h)
    ensures SelfNaming(w.o.archives)
  {
    hide Ready, Remember, Inv;
    SelfNamed(w, h);
  }

  lemma BeganFor(w: World, archive: nat)
    ensures archive in w.o.archives && CanBegin(w.o, Restore) ==>
      var w' := Begin(w, Restore, Admin, Some(w.o.archives[archive]));
      w'.o.archives == w.o.archives && w'.o.job.Some? && w'.o.job.value.receipt == Some(w.o.archives[archive])
    ensures forall reason, receipt, action :: Begin(w, action, reason, receipt).o.archives == w.o.archives
  {
    hide CanBegin, BusyState, FirstStage;
  }

  lemma MutateHealthy(w: World, h: History, content: Content, bucket: map<string, Bytes>)
    requires WellKept(w.o.record.kind, content, bucket) && Schema(w.o.record.kind, content)
    requires Healthy(w, h)
    ensures Healthy(Mutate(w, content, bucket), h)
  {
    hide Inv, Ready, WellKept, Schema, Mutate;
    MutateKept(w, h, content, bucket);
    MutateReady(w, h, content, bucket);
  }

  lemma SameHealthy(w: World, h: History)
    requires Healthy(w, h)
    ensures Remember(h, w, w) == h
  {
    hide Ready, ArchivesHold, Holding, Running;
  }

  lemma OverdueBegins(w: World, h: History)
    requires Overdue(w.o.record, w.now)
    requires Healthy(w, h)
    ensures CanBegin(w.o, Delete) && CanBegin(w.o, ArchiveDelete)
  {
    hide Ready, Ids, ArchivesHold, Holding, Running, ExpiresAt;
  }

  /** With its manifest verified a backup is complete. */
  lemma ReceiptMeans(w: World, h: History, j: Job, m: Manifest)
    requires w.pc == PutManifest(j, m) && LiveStep(w)
    requires ManifestStored(w)
    requires Healthy(w, h)
    ensures HoldsArchive(w.store, Resume(w).o.archives, j.id, SnapshotOf(w.o.content, w.bucket))
  {
    hide Inv, Ready, Finish, ReadVerified, ArchiveHolds, SnapshotOf, WellKept, Covered, AllTables, Cleared, LiveStep;
    StepKnows(w, h);
    BackupStep(w, h);
    AnswerManifestIs(w, j, m);
    ManifestCompletes(w.o.record.kind, w.o.content, w.bucket, w.store, ObjectsOf(w.o, j.id), j);
    FinishParts(Receipted(w, j, m), j.(receipt := Some(ReceiptOf(j, m))), Active, false);
  }

  lemma CancelMeans(w: World, h: History)
    requires Healthy(w, h)
    ensures BackupJob(w) ==> w.o.content == h.frozen && w.bucket == h.frozenFiles && !RestoreJob(w)
  {
    hide Inv, Ready, WellKept, Holds, Empty, ArchivesHold, BackingUp, TablesNamed;
    if w.o.job.Some? && BackingUp(w.o.job.value.stage) {
      StoredJob(w, h);
      UntouchedContent(w, h, w.o.job.value);
    }
  }

  /** A restore that ends has brought back what its archive was taken from. */
  lemma RestoreMeans(w: World, h: History)
    requires RestoreJob(w) && Resume(w).o.job.None?
    requires Healthy(w, h)
    ensures BroughtBack(w.o.job, h, Resume(w))
  {
    hide Inv, Ready, Finish, ManifestFor, Rows;
    RestoreEnds(w, h);
    CheckedIsRebuilt(w, h, w.pc.job);
    FinishParts(w, w.pc.job.(source := ManifestFor(w.store, w.pc.job).value.resource), Active, false);
  }

  class ResourceLifecycle {
    // Durable tables
    var record: Record
    var job: Option<Job>
    var dirty: nat
    var archives: map<nat, Receipt>
    var objects: map<nat, seq<ObjectEntry>>
    var content: Content
    // The one running step
    var pc: Pc
    // The outside: live files, archive store, clock, fresh ids
    var bucket: map<string, Bytes>
    var store: Store
    var now: int
    var nextId: nat
    // What each archive job began from
    ghost var history: History

    ghost function View(): World
      reads this
    {
      World(Object(record, job, dirty, archives, objects, content), pc, bucket, store, now, nextId)
    }

    ghost predicate Valid()
      reads this
    {
      Healthy(View(), history)
    }

    /** A resource just created. */
    constructor (record: Record, content: Content, bucket: map<string, Bytes>, store: Store, now: int, nextId: nat)
      requires record.state == Active && WellKept(record.kind, content, bucket) && Schema(record.kind, content)
      ensures Valid()
      ensures this.record == record && this.content == content && this.bucket == bucket && job == None && pc == Idle
    {
      this.record, this.content, this.bucket, this.store, this.now, this.nextId := record, content, bucket, store, now, nextId;
      job, dirty, archives, objects, pc := None, 2, map[], map[], Idle;
      history := NOTHING_YET;
      new;
      InitHolds(View());
      InitReady(View());
    }

    /** What happens outside between two parts of a step: a bucket call takes effect,
        an archive key is written, time passes, or the process is lost. */
    method Meanwhile(ev: Event)
      requires ev.Effect? || ev.StoreGrew? || ev.TimePassed? || ev.Crash?
      requires Valid()
      modifies this`pc, this`bucket, this`store, this`now
      ensures View() == Apply(old(View()), ev)
      ensures Valid() && history == old(history)
    {
      hide Healthy, Remember, Start, Resume, Lifecycle.Begin, Lifecycle.Cancel, Lifecycle.Tick, Lifecycle.EditPolicy,
           Lifecycle.Mutate, Lifecycle.BeginByAdmin;
      EventHealthy(View(), history, ev);
      BeginsNothing(View(), history, ev);
      match ev {
        case Effect =>
          if pc.EraseFile? && pc.files != [] {
            if pc.files[0].row.AttachmentRow? { bucket := bucket - {pc.files[0].row.key}; }
            pc := FileErased(pc.job, pc.files);
          } else if pc.PutFile? {
            bucket := bucket[pc.key := pc.bytes];
            pc := FilePut(pc.job);
          }
        case StoreGrew(key, blob) => if key !in store { store := store[key := blob]; }
        case TimePassed(ms) => now := now + ms;
        case Crash => pc := Idle;
      }
    }

    // ---- Parts of several methods ----

    method Save(r: Record, mark: nat)
      modifies this`record, this`dirty
      ensures View() == old(View()).(o := Lifecycle.Save(old(View().o), r, mark, now))
    {
      record := r.(version := r.version + 1, updatedAt := now);
      if dirty < mark { dirty := mark; }
    }

    method Begin(action: Action, reason: Reason, receipt: Option<Receipt>) returns (ok: bool)
      requires Valid() && Allowed(archives, action, reason, receipt)
      modifies this`record, this`dirty, this`job, this`nextId, this`history
      ensures ok == CanBegin(old(View().o), action)
      ensures View() == Lifecycle.Begin(old(View()), action, reason, receipt)
      ensures Valid() && history == Remember(old(history), old(View()), View())
    {
      hide Healthy, Remember, Allowed;
      SameHealthy(View(), history);
      BeginHealthy(View(), history, action, reason, receipt);
      history := Remember(history, View(), Lifecycle.Begin(View(), action, reason, receipt));
      if job.Some? { return false; }
      if action == Restore {
        if record.state != Deleted { return false; }
      } else if record.state != Active {
        return false;
      }
      job := Some(Job(action, nextId, FirstStage(action), 0, -1, 0, record, receipt));
      nextId := nextId + 1;
      Save(record.(state := BusyState(action, reason), reason := Some(reason), attempts := 0), 2);
      return true;
    }

    /** An overdue resource begins to expire at once. */
    method Tick()
      requires Valid()
      modifies this`record, this`dirty, this`job, this`nextId, this`history
      ensures View() == Lifecycle.Tick(old(View()))
      ensures Valid() && history == Remember(old(history), old(View()), View())
      ensures old(Overdue(record, now)) ==> job.Some? && record.state == Expiring
    {
      hide Healthy, Remember;
      SameHealthy(View(), history);
      if Overdue(record, now) { OverdueBegins(View(), history); }
      if Overdue(record, now) {
        var _ := Begin(if record.policy.archiveOnTtl then ArchiveDelete else Delete, Ttl, None);
      }
    }

    /** An administrator archives, deletes or restores; a restore names an archive. */
    method BeginByAdmin(action: Action, archive: nat) returns (ok: bool)
      requires Valid()
      modifies this`record, this`dirty, this`job, this`nextId, this`history
      ensures View() == Lifecycle.BeginByAdmin(old(View()), action, archive)
      ensures Valid()
      ensures ok && action == Restore ==> archive in archives && job.Some? && job.value.receipt == Some(archives[archive])
    {
      hide Healthy, Remember, Overdue, Lifecycle.Begin, Lifecycle.Tick;
      BeganFor(Lifecycle.Tick(View()), archive);
      Tick();
      ReceiptsNamed(View(), history);
      ok := false;
      if action != Restore {
        ok := Begin(action, Admin, None);
      } else if archive in archives {
        ok := Begin(Restore, Admin, Some(archives[archive]));
      }
    }

    /** A content mutation: refused unless available, else it counts as activity. */
    method Mutate(newContent: Content, newBucket: map<string, Bytes>) returns (ok: bool)
      requires Valid() && WellKept(record.kind, newContent, newBucket) && Schema(record.kind, newContent)
      modifies this`record, this`dirty, this`content, this`bucket
      ensures ok == Available(old(record), now)
      ensures View() == Lifecycle.Mutate(old(View()), newContent, newBucket)
      ensures Valid() && history == old(history)
    {
      hide Healthy, WellKept, Schema, Available;
      MutateHealthy(View(), history, newContent, newBucket);
      ok := Available(record, now);
      if ok {
        content, bucket := newContent, newBucket;
        Save(record.(lastActivityAt := now), 1);
      }
    }

    method EditPolicy(version: nat, policy: Policy) returns (ok: bool)
      requires Valid()
      modifies this`record, this`dirty, this`job, this`nextId, this`history
      ensures View() == Lifecycle.EditPolicy(old(View()), version, policy)
      ensures ok ==> old(Available(record, now)) && version == old(record.policyVersion)
      ensures Valid()
    {
      hide Healthy, Remember;
      Tick();
      if record.state != Active || job.Some? || version != record.policyVersion { return false; }
      RecordHealthy(View(), history, record.(policy := policy, policyVersion := record.policyVersion + 1), 2);
      Save(record.(policy := policy, policyVersion := record.policyVersion + 1), 2);
      Tick();
      return true;
    }

    /** A cancelled backup leaves the content as the job found it. */
    method Cancel() returns (ok: bool)
      requires Valid()
      modifies this`record, this`dirty, this`job, this`nextId, this`objects, this`history
      ensures ok == (old(job).Some? && old(job).value.stage != Erase)
      ensures View() == Lifecycle.Cancel(old(View()))
      ensures Valid() && history == Remember(old(history), old(View()), View())
      ensures old(job).Some? && BackingUp(old(job).value.stage) ==>
        record.state == Active && content == old(history).frozen && bucket == old(history).frozenFiles
    {
      hide Healthy, Remember;
      SameHealthy(View(), history);
      CancelHealthy(View(), history);
      CancelMeans(View(), history);
      history := Remember(history, View(), Lifecycle.Cancel(View()));
      if job.None? || job.value.stage == Erase { return false; }
      var j := job.value;
      var next: Option<Job> := None;
      var r := record.(attempts := 0);
      if j.action != Restore {
        if r.reason == Some(Ttl) {
          r := r.(policy := r.policy.(paused := true), policyVersion := r.policyVersion + 1);
        }
        r := r.(state := Active, reason := None);
      } else if j.stage == RestoreVerify {
        r := r.(state := Deleted, reason := Some(RestoreCanceled));
      } else {
        next := Some(Job(Delete, nextId, Erase, 0, -1, 0, r, None));
        nextId := nextId + 1;
        r := r.(state := Deleting, reason := Some(RestoreCanceled));
      }
      job := next;
      objects := objects - {j.id};
      Save(r, 2);
      return true;
    }

    method FinishedRecord(j: Job, state: ResourceState) returns (r: Record)
      ensures r == Finished(record, j, state, now)
    {
      r := record.(state := state);
      if state == Deleted {
        r := r.(deletedAt := if j.source.deletedAt.Some? then j.source.deletedAt else Some(now));
      }
      if j.action == Restore {
        r := r.(createdAt := j.source.createdAt, lastActivityAt := j.source.lastActivityAt,
                policy := j.source.policy.(paused := true), policyVersion := r.policyVersion + 1, deletedAt := None);
      }
    }

    method Finish(j: Job, state: ResourceState, clear: bool)
      modifies this`record, this`dirty, this`job, this`objects, this`content, this`pc
      ensures View() == Lifecycle.Finish(old(View()), j, state, clear)
    {
      hide Finished;
      pc := Idle;
      if job.None? || job.value.id != j.id { return; }
      var r := FinishedRecord(j, state);
      if clear { content := Cleared(content); }
      job := None;
      objects := objects - {j.id};
      Save(r, 2);
    }

    /** `live(job); saveJob(job)`. */
    method SaveJob(j: Job)
      modifies this`job, this`pc
      ensures View() == Saved(old(View()), j)
    {
      if job.Some? && job.value.id == j.id { job := Some(j); }
      pc := Idle;
    }

    /** A step that throws. */
    method Fail()
      modifies this`record, this`dirty, this`pc
      ensures View() == Failed(old(View()))
      ensures old(Valid()) ==> Valid()
    {
      hide Healthy, Start, Resume;
      ghost var was, h := View(), history;
      if !pc.Idle? && job.Some? && job.value.id == pc.job.id {
        Save(record.(attempts := record.attempts + 1), 2);
      }
      pc := Idle;
      if Healthy(was, h) { StepHealthy(was, h); }
    }

    /** The next chunk of a table, packed by size for the two large text tables. */
    method ReadChunk(t: TableName, after: int) returns (rows: seq<Listed<Row>>)
      ensures rows == SnapshotRows(content, t, after)
    {
      var m := Rows(content, t);
      var count := CHUNK_ROWS;
      if t == Pages || t == Revisions {
        count := ChunkCount(Sizes(Select(m, after, CHUNK_ROWS)));
      }
      rows := Select(if t == Attachments then ReadyOnly(m) else m, after, count);
      if t == Meta && rows != [] {
        rows := rows[0 := Listed(rows[0].rowid, WithBytes(rows[0].row, ReadyBytes(content)))];
      }
    }

    /** A step up to its first await. */
    method StartStep()
      requires pc.Idle? && job.Some?
      requires Valid()
      modifies this
      ensures View() == Start(old(View()))
      ensures Valid() && history == old(history)
    {
      hide Healthy, Resume, Saved, Select, ReadyOnly, Rows, Existing, TableNames, SnapshotRows, Cursor;
      StepHealthy(View(), history);
      var j := job.value;
      match j.stage {
        case Snapshots =>
          var all := Existing(TableNames(record.kind), content);
          if |all| <= j.table {
            SaveJob(j.(stage := Files, cursor := -1));
          } else {
            var rows := ReadChunk(all[j.table], j.cursor);
            if rows == [] {
              SaveJob(NextTable(j));
            } else {
              pc := PutObject(j, RowsBlob(rows), TableDetail(all[j.table], |rows|), Cursor(rows, j.cursor));
            }
          }
        case Files =>
          var next := if record.kind == Wiki then Select(ReadyOnly(Rows(content, Attachments)), j.cursor, 1) else [];
          if next == [] || !next[0].row.AttachmentRow? {
            SaveJob(j.(stage := WriteManifest));
          } else {
            pc := GetFile(j, next[0].rowid, next[0].row.key, next[0].row.size);
          }
        case WriteManifest =>
          var all := Existing(TableNames(record.kind), content);
          pc := PutManifest(j, Manifest(j.id, j.source, all, if j.id in objects then objects[j.id] else []));
        case Erase =>
          var files := if record.kind == Wiki then Select(Rows(content, Attachments), -1, ERASE_BATCH) else [];
          if files == [] { Finish(j, Deleted, true); } else { pc := EraseFile(j, files); }
        case RestoreVerify => pc := NeedManifest(j);
        case RestoreWrite => pc := NeedManifest(j);
        case RestoreCheck => pc := NeedManifest(j);
      }
    }

    /** An object write was answered: record it only if the store reads back verified. */
    method AnswerPut()
      requires pc.PutObject?
      requires Valid()
      modifies this
      ensures View() == Resume(old(View()))
      ensures Valid() && history == old(history)
    {
      hide Healthy, Start, HasManifest, HasObject, Lifecycle.Finish;
      StepHealthy(View(), history);
      var j, blob, detail := pc.job, pc.blob, pc.detail;
      var key := ObjectKey(j.id, j.index);
      if ReadVerified(store, key, Sha256(blob)).None? {
        Fail();
      } else if job.None? || job.value.id != j.id {
        pc := Idle;
      } else {
        var entries := if j.id in objects then objects[j.id] else [];
        objects := objects[j.id := PutAt(entries, j.index, ObjectEntry(key, Sha256(blob), detail))];
        pc := Recorded(Counted(j), pc.cursor,
          if detail.FileDetail? && blob.FileBlob? then Some((detail.file, blob.bytes)) else None);
      }
    }

    /** The manifest was answered: only a verified one yields a receipt, and only a
        receipt lets the erase begin. */
    method AnswerManifest() returns (ok: bool)
      requires pc.PutManifest?
      requires Valid()
      modifies this
      ensures View() == Resume(old(View()))
      ensures Valid() && history == old(history)
      ensures ok == old(ReadVerified(store, ManifestKey(pc.job.id), Sha256(ManifestBlob(pc.manifest))).Some? && Live(View().o, pc.job))
      ensures ok ==> old(pc.job.id) in archives && ArchiveHolds(store, archives[old(pc.job.id)], SnapshotOf(old(content), old(bucket)))
    {
      hide Healthy, Start, Finished, ArchiveHolds, SnapshotOf, ReadVerified;
      ok := false;
      StepHealthy(View(), history);
      var j, m := pc.job, pc.manifest;
      var key := ManifestKey(j.id);
      if ReadVerified(store, key, Sha256(ManifestBlob(m))).None? {
        Fail();
      } else if job.None? || job.value.id != j.id {
        pc := Idle;
      } else {
        ReceiptMeans(View(), history, pc.job, pc.manifest);
        ok := true;
        var receipt := Receipt(j.id, key, Sha256(ManifestBlob(m)), |m.objects|);
        archives := archives[j.id := receipt];
        Save(record.(latestArchive := Some(receipt)), 2);
        j := j.(receipt := Some(receipt));
        if j.action == Archive { Finish(j, Active, false); } else { SaveJob(j.(stage := Erase)); }
      }
    }

    /** A file was deleted: delete its row, and go on with the batch. */
    method AnswerErased()
      requires pc.FileErased? && pc.files != []
      requires Valid()
      modifies this
      ensures View() == Resume(old(View()))
      ensures Valid() && history == old(history)
    {
      hide Healthy, Start, HasManifest, HasObject, Lifecycle.Finish, Saved, Failed, ManifestFor, ReadVerified, Rows;
      StepHealthy(View(), history);
      var j, files := pc.job, pc.files;
      if job.None? || job.value.id != j.id {
        pc := Idle;
      } else {
        content := content[Attachments := Rows(content, Attachments) - {files[0].rowid}];
        if |files| > 1 { pc := EraseFile(j, files[1..]); } else { SaveJob(j); }
      }
    }

    /** An archive object was read during a restore: count it, or write its rows, or
        put its file, or compare. */
    method AnswerObject()
      requires pc.NeedObject? && pc.job.index < |pc.manifest.objects|
      requires Valid()
      modifies this
      ensures View() == Resume(old(View()))
      ensures Valid() && history == old(history)
    {
      hide Healthy, Start, HasManifest, Saved, Failed, ManifestFor, ReadVerified, WriteEntry, Between, Rows;
      StepHealthy(View(), history);
      var j := pc.job;
      var e := pc.manifest.objects[j.index];
      var read := ReadVerified(store, e.key, e.hash);
      if read.None? { Fail(); return; }
      var live := job.Some? && job.value.id == j.id;
      match j.stage {
        case RestoreVerify => SaveJob(Counted(j));
        case RestoreWrite =>
          if !live {
            pc := Idle;
          } else if e.detail.TableDetail? {
            if !read.value.RowsBlob? || |read.value.rows| != e.detail.count || e.detail.table !in content {
              Fail();
            } else {
              content := WriteEntry(content, e);
              SaveJob(Counted(j));
            }
          } else if read.value.FileBlob? {
            pc := PutFile(j, e.detail.file, read.value.bytes);
          } else {
            Fail();
          }
        case RestoreCheck =>
          if e.detail.TableDetail? && read.value.RowsBlob?
             && Between(Rows(content, e.detail.table), read.value.rows) == read.value.rows {
            SaveJob(Counted(j));
          } else {
            Fail();
          }
        case _ => Fail();
      }
    }

    /** After a recorded file the live object is checked again before the job moves on. */
    method AnswerRecorded()
      requires pc.Recorded?
      requires Valid()
      modifies this
      ensures View() == Resume(old(View()))
      ensures Valid() && history == old(history)
    {
      hide Healthy, Start, HasManifest, HasObject, Lifecycle.Finish, Saved, Failed, ManifestFor, ReadVerified, PutAt;
      StepHealthy(View(), history);
      var check := pc.check;
      if check.Some? && (check.value.0 !in bucket || bucket[check.value.0] != check.value.1) {
        Fail();
      } else {
        SaveJob(pc.job.(cursor := pc.cursor));
      }
    }

    /** A live file was read for the backup. */
    method AnswerFile()
      requires pc.GetFile?
      requires Valid()
      modifies this
      ensures View() == Resume(old(View()))
      ensures Valid() && history == old(history)
    {
      hide Healthy, Start, HasManifest, HasObject, Lifecycle.Finish, Saved, Failed, ManifestFor, ReadVerified, PutAt;
      StepHealthy(View(), history);
      if pc.key !in bucket || |bucket[pc.key]| != pc.size {
        Fail();
      } else {
        pc := PutObject(pc.job, FileBlob(bucket[pc.key]), FileDetail(pc.key), pc.rowid);
      }
    }

    /** A restore step has its manifest: on to the next object, the next stage, or the end. */
    method AnswerManifestRead()
      requires pc.NeedManifest?
      requires Valid()
      modifies this
      ensures View() == Resume(old(View()))
      ensures Valid() && history == old(history)
      ensures job.None? && old(job).Some? && old(job).value.action == Restore ==>
        BroughtBack(old(job), history, View())
    {
      hide Healthy, Resume, Saved, Failed, Lifecycle.Finish, ManifestFor, RoomFor, BroughtBack, Start;
      StepHealthy(View(), history);
      if job.Some? && job.value.action == Restore && Resume(View()).o.job.None? { RestoreMeans(View(), history); }
      var j, m := pc.job, ManifestFor(store, pc.job);
      NotRead(View(), j);
      if m.Some? && LiveStep(View()) { HasManifestIs(View(), j, m.value); }
      if m.None? { Fail(); return; }
      if job.None? || job.value.id != j.id { pc := Idle; return; }
      var more := j.index < |m.value.objects|;
      match j.stage {
        case RestoreVerify =>
          if more {
            pc := NeedObject(j, m.value);
          } else {
            content := RoomFor(content, m.value.tables);
            SaveJob(ToWrite(j));
          }
        case RestoreWrite =>
          if more { pc := NeedObject(j, m.value); } else { SaveJob(ToCheck(j)); }
        case RestoreCheck =>
          if !more {
            Finish(j.(source := m.value.resource), Active, false);
          } else if m.value.objects[j.index].detail.TableDetail? {
            pc := NeedObject(j, m.value);
          } else {
            pc := NeedFile(j, m.value);
          }
        case _ => Fail();
      }
    }

    /** A restored file is compared with its hash. */
    method AnswerFileCheck()
      requires pc.NeedFile? && pc.job.index < |pc.manifest.objects|
      requires Valid()
      modifies this
      ensures View() == Resume(old(View()))
      ensures Valid() && history == old(history)
    {
      hide Healthy, Start, HasManifest, HasObject, Lifecycle.Finish, Saved, Failed, ManifestFor, ReadVerified, PutAt;
      StepHealthy(View(), history);
      var j := pc.job;
      var e := pc.manifest.objects[j.index];
      if e.detail.FileDetail? && e.detail.file in bucket && Sha256(FileBlob(bucket[e.detail.file])) == e.hash {
        SaveJob(Counted(j));
      } else {
        Fail();
      }
    }

    method AnswerFilePut()
      requires pc.FilePut?
      requires Valid()
      modifies this
      ensures View() == Resume(old(View()))
      ensures Valid() && history == old(history)
    {
      hide Healthy, Start, HasManifest, HasObject, Lifecycle.Finish, Saved, Failed, ManifestFor, ReadVerified, PutAt;
      StepHealthy(View(), history);
      SaveJob(Counted(pc.job));
    }
  }
}
