/** The lifecycle's promises, over every reachable state and every run. */
module LifecycleResults {
  import opened Options
  import opened Tables
  import opened Backup
  import opened Lifecycle
  import opened LifecycleInvariant
  import opened LifecycleProofs
  import opened LifecycleSteps
  import opened LifecycleFrames
  import opened LifecycleTheorems

  /** Some run from a fresh resource leads here. */
  ghost predicate Reachable(w: World, h: History) {
    exists w0, evs :: Init(w0) && Run(w0, NOTHING_YET, evs) == (w, h)
  }

  lemma ReachableHolds(w: World, h: History)
    requires Reachable(w, h)
    ensures Inv(w, h)
  {
    hide Inv, Init, Run;
    var w0, evs :| Init(w0) && Run(w0, NOTHING_YET, evs) == (w, h);
    InitHolds(w0);
    RunKept(w0, NOTHING_YET, evs);
  }

  // ---- Verified before erase ----

  /** An archive-then-delete job erases only when its manifest and every object it
      lists are in the write-once store with the recorded hashes, and together they
      hold all content frozen when the job began. */
  lemma VerifiedBeforeErase(w: World, h: History)
    requires w.o.job.Some? && w.o.job.value.action == ArchiveDelete && w.o.job.value.stage == Erase
    requires Reachable(w, h)
    ensures w.o.job.value.receipt.Some? && w.o.job.value.receipt.value.archive == w.o.job.value.id
    ensures ArchiveHolds(w.store, w.o.job.value.receipt.value, SnapshotOf(h.frozen, h.frozenFiles))
  {
    hide Reachable, WellKept, ArchiveHolds, SnapshotOf, Running, Covered, RestoreOk, Ids, Shape, Empty;
    ReachableHolds(w, h);
    var id := w.o.job.value.id;
    assert ArchiveHolds(w.store, w.o.archives[id], h.snaps[id]);
  }

  // ---- Restore ----

  /** The objects of the manifest have all been compared: the restore is at its end. */
  ghost predicate LastCheck(w: World) {
    && w.pc.NeedManifest? && w.o.job == Some(w.pc.job) && w.pc.job.stage == RestoreCheck
    && var m := ManifestFor(w.store, w.pc.job);
       && m.Some? && |m.value.objects| <= w.pc.job.index
       && Resume(w) == Finish(w, w.pc.job.(source := m.value.resource), Active, false)
  }

  /** What a restore that ends has brought back. */
  ghost predicate BroughtBack(job: Option<Job>, h: History, w': World) {
    && job.Some? && job.value.receipt.Some? && job.value.receipt.value.archive in h.snaps
    && var snap := h.snaps[job.value.receipt.value.archive];
       (forall t :: Rows(w'.o.content, t) == Rows(snap.content, t)) && w'.bucket == snap.files
  }

  /** The only way a restore ends in an active resource is its completed check. */
  lemma RestoreEnds(w: World, h: History)
    requires RestoreJob(w)
    requires Resume(w).o.job.None?
    requires Inv(w, h)
    ensures LastCheck(w)
  {
    hide Inv, Finish, Failed, ManifestFor, HasObject, ReadVerified, Covered, Frozen, ArchivesHold, WellKept,
         RestoreOk, Due, PutAt, Saved;
    NoJobLost(w);
    MoversLoseNoJob(w);
    StoredJob(w, h);
    if w.pc.PutManifest? {
      if Live(w.o, w.pc.job) { BackupStep(w, h); }
      assert false;
    }
    assert w.pc.NeedManifest?;
    assert Live(w.o, w.pc.job);
    StepKnows(w, h);
  }

  lemma MoversLoseNoJob(w: World)
    ensures forall j :: Saved(w, j).o.job.Some? == w.o.job.Some?
    ensures forall j, c :: Saved(w.(o := w.o.(content := c)), j).o.job.Some? == w.o.job.Some?
    ensures Failed(w).o.job == w.o.job
  {
  }

  lemma ObjectsLoseNoJob(w: World)
    ensures forall j, e, b :: HasObject(w, j, e, b).o.job.Some? == w.o.job.Some?
  {
    hide Saved, Failed, WriteEntry, Between, Rows;
    MoversLoseNoJob(w);
  }

  /** Apart from a manifest answer and a manifest write no answer drops the job. */
  lemma NoJobLost(w: World)
    ensures !w.pc.NeedManifest? && !w.pc.PutManifest? ==> Resume(w).o.job.Some? == w.o.job.Some?
    ensures (w.pc.NeedManifest? || w.pc.PutManifest?) && !LiveStep(w) ==> Resume(w).o.job == w.o.job
  {
    hide Saved, Failed, HasObject, HasManifest, Finish, ReadVerified, ManifestFor, PutAt, Rows;
    MoversLoseNoJob(w);
    ObjectsLoseNoJob(w);
  }

  lemma CheckedIsRebuilt(w: World, h: History, j: Job)
    requires w.pc == NeedManifest(j) && w.o.job == Some(j) && j.stage == RestoreCheck
    requires Inv(w, h)
    ensures BroughtBack(w.o.job, h, w)
  {
    hide Inv, ManifestFor, WellKept, ArchiveHolds, Describes, Written, AllStored, FilesOf, Rows, TablesFirst;
    RestoreStep(w, h);
    var snap := h.snaps[j.receipt.value.archive];
    ManifestIs(w.store, w.o.archives, snap, j);
    var m := ManifestFor(w.store, j).value;
    WrittenIsSnapshot(w.o.content, m.objects, snap);
    DescribedFiles(m.objects, snap);
  }

  lemma DescribedFiles(objects: seq<ObjectEntry>, snap: Snapshot)
    requires Describes(objects, snap)
    ensures FilesOf(objects) == snap.files
  {
  }

  /** A restore that finishes leaves exactly the rows and files its archive was
      taken from, active, and with expiry paused. */
  lemma RestoreGivesBack(w: World, h: History)
    requires RestoreJob(w)
    requires Apply(w, Answer).o.job.None?
    requires Reachable(w, h)
    ensures var w' := Apply(w, Answer);
            w'.o.record.state == Active && w'.o.record.policy.paused && BroughtBack(w.o.job, h, w')
  {
    hide Reachable, Inv, Resume, ManifestFor, Finish, Apply, Rows;
    AnswerIs(w);
    ReachableHolds(w, h);
    RestoreEnds(w, h);
    CheckedIsRebuilt(w, h, w.pc.job);
    var job := w.pc.job.(source := ManifestFor(w.store, w.pc.job).value.resource);
    FinishParts(w, job, Active, false);
    FinishPauses(w, job);
  }

  lemma AnswerIs(w: World)
    ensures Apply(w, Answer) == Resume(w)
  {
    hide Resume, Available, Begin, BeginByAdmin, Cancel, EditPolicy, Failed, Land, Mutate, Save, Schema, Start, Tick,
         WellKept;
  }

  lemma FinishPauses(w: World, job: Job)
    requires Live(w.o, job) && job.action == Restore
    ensures Finish(w, job, Active, false).o.record.policy.paused
  {
  }

  ghost predicate HoldsArchive(store: Store, archives: map<nat, Receipt>, id: nat, snap: Snapshot) {
    id in archives && ArchiveHolds(store, archives[id], snap)
  }

  ghost predicate Recalls(h: History, h': History) {
    forall id | id in h.snaps :: id in h'.snaps && h'.snaps[id] == h.snaps[id]
  }

  lemma IdsOf(w: World, h: History)
    requires Inv(w, h)
    ensures Ids(w, h)
  {
  }

  lemma SnapsStay(w: World, h: History, w': World)
    requires Ids(w, h)
    ensures Recalls(h, Remember(h, w, w'))
  {
    hide SnapshotOf;
  }

  /** What an archive is to hold is settled when its job begins. */
  lemma {:induction false} SnapsPersist(w: World, h: History, evs: seq<Event>)
    requires Inv(w, h)
    ensures Recalls(h, Run(w, h, evs).1)
    decreases |evs|
  {
    hide Inv, Apply, Remember;
    if evs != [] {
      var w' := Apply(w, evs[0]);
      IdsOf(w, h);
      SnapsStay(w, h, w');
      EventKept(w, h, evs[0]);
      SnapsPersist(w', Remember(h, w, w'), evs[1..]);
    }
  }

  lemma {:induction false} RunsCompose(w: World, h: History, a: seq<Event>, b: seq<Event>)
    ensures Run(w, h, a + b) == Run(Run(w, h, a).0, Run(w, h, a).1, b)
    decreases |a|
  {
    hide Apply, Remember;
    if a == [] {
      assert a + b == b;
    } else {
      assert (a + b)[1..] == a[1..] + b;
      var w' := Apply(w, a[0]);
      RunsCompose(w', Remember(h, w, w'), a[1..], b);
    }
  }

  lemma RunReaches(w: World, h: History, evs: seq<Event>)
    requires Reachable(w, h)
    ensures Reachable(Run(w, h, evs).0, Run(w, h, evs).1)
  {
    hide Init, Run;
    var w0, before :| Init(w0) && Run(w0, NOTHING_YET, before) == (w, h);
    RunsCompose(w0, NOTHING_YET, before, evs);
    assert Run(w0, NOTHING_YET, before + evs) == Run(w, h, evs);
  }

  /** The rows a backup keeps, spelled out: all rows of all tables, except that
      unfinished attachments are dropped and the wiki's byte account is recomputed
      over the finished ones. */
  ghost predicate KeptRows(before: Content, after: Content) {
    && (forall t | t != Attachments && t != Meta :: Rows(after, t) == Rows(before, t))
    && Rows(after, Attachments) == ReadyOnly(Rows(before, Attachments))
    && Rows(after, Meta).Keys == Rows(before, Meta).Keys
    && (forall k | k in Rows(before, Meta) :: Rows(after, Meta)[k] == WithBytes(Rows(before, Meta)[k], ReadyBytes(before)))
  }

  /** Backup, erase and restore: whatever happens in between, a restore from the
      archive of a job begun on `w1` that finishes leaves exactly the rows and the
      finished files `w1` had. */
  lemma BackupRoundTrip(w1: World, h1: History, begin: Event, evs: seq<Event>)
    requires var w2 := Apply(w1, begin); ArchiveBegan(w1, w2)
    requires var w2 := Apply(w1, begin);
             var (w3, _) := Run(w2, Remember(h1, w1, w2), evs);
             && w3.o.job.Some? && w3.o.job.value.action == Restore
             && w3.o.job.value.receipt.Some? && w3.o.job.value.receipt.value.archive == w1.nextId
             && Apply(w3, Answer).o.job.None?
    requires Reachable(w1, h1)
    ensures var w2 := Apply(w1, begin);
            var (w3, _) := Run(w2, Remember(h1, w1, w2), evs);
            var w4 := Apply(w3, Answer);
            && w4.o.record.state == Active
            && KeptRows(w2.o.content, w4.o.content)
            && w4.bucket == ReadyFiles(w2.o.content, w2.bucket)
  {
    hide Reachable, Apply, Inv, KeptRows, Run, Rows, ReadyFiles, Kept, ArchiveBegan;
    var w2 := Apply(w1, begin);
    var h2 := Remember(h1, w1, w2);
    var (w3, h3) := Run(w2, h2, evs);
    assert Run(w1, h1, [begin]) == (w2, h2) by { OneEvent(w1, h1, begin); }
    RunReaches(w1, h1, [begin]);
    RunReaches(w2, h2, evs);
    ReachableHolds(w2, h2);
    SnapsPersist(w2, h2, evs);
    RestoreGivesBack(w3, h3);
    SameRowsKept(w2.o.content, Apply(w3, Answer).o.content);
  }

  lemma OneEvent(w: World, h: History, ev: Event)
    ensures Run(w, h, [ev]) == (Apply(w, ev), Remember(h, w, Apply(w, ev)))
  {
    hide Apply, Remember;
    assert Run(Apply(w, ev), Remember(h, w, Apply(w, ev)), []) == (Apply(w, ev), Remember(h, w, Apply(w, ev)));
  }

  lemma SameRowsKept(before: Content, after: Content)
    requires forall t :: Rows(after, t) == Rows(Kept(before), t)
    ensures KeptRows(before, after)
  {
    hide Rows;
    KeptMeans(before);
  }

  lemma KeptMeans(c: Content)
    ensures KeptRows(c, Kept(c))
    ensures forall t :: Rows(Kept(c), t) == KeptTable(c, t)
  {
    forall t ensures Rows(Kept(c), t) == KeptTable(c, t) {
      if t !in c { assert Rows(c, t) == map[]; }
    }
  }

  // ---- Cancel ----

  /** Before anything live has changed a cancel puts the resource back: its content
      is what was frozen when the job began, and an expiry does not start again. */
  lemma CancelBeforeErase(w: World, h: History)
    requires BackupJob(w)
    requires Reachable(w, h)
    ensures var w' := Cancel(w);
            && w'.o.record.state == Active && w'.o.job.None?
            && w'.o.content == h.frozen && w'.bucket == h.frozenFiles
            && (w.o.record.reason == Some(Ttl) ==> forall now :: !Overdue(w'.o.record, now))
  {
    hide Reachable, ArchivesHold, Running, WellKept, JobHolding, Ids;
    ReachableHolds(w, h);
    UntouchedContent(w, h, w.o.job.value);
  }

  /** A restore cancelled while it still verifies leaves the resource deleted and empty. */
  lemma CancelInVerify(w: World, h: History)
    requires JobAt(w, RestoreVerify)
    requires Reachable(w, h)
    ensures var w' := Cancel(w);
            w'.o.record.state == Deleted && w'.o.job.None? && Empty(w'.o.content) && w'.bucket == map[]
  {
    hide Reachable, ArchivesHold, Running, WellKept, JobHolding, Ids, Empty;
    ReachableHolds(w, h);
    UntouchedContent(w, h, w.o.job.value);
  }

  /** A restore cancelled later turns into a deletion, and every file it has put,
      or has still in flight, is named by a row that deletion will work through. */
  lemma CancelInWrite(w: World, h: History)
    requires JobAt(w, RestoreWrite) || JobAt(w, RestoreCheck)
    requires Reachable(w, h)
    ensures var w' := Cancel(w);
            && w'.o.record.state == Deleting && w'.o.job.Some? && w'.o.job.value.stage == Erase
            && !Live(w'.o, w.o.job.value)
            && Named(w'.o.content, w'.bucket)
            && (w.pc.PutFile? ==> NamesFile(w'.o.content, w.pc.key))
  {
    hide Reachable, Cancel, Named, Inv, NamesFile;
    ReachableHolds(w, h);
    CancelParts(w);
    StoredStage(w, h, w.o.job.value);
    CancelNamed(w, h);
  }

  lemma StoredStage(w: World, h: History, j: Job)
    requires w.o.job == Some(j)
    requires Inv(w, h)
    ensures RestoringStage(j.stage) <==> j.action == Restore
    ensures j.id < w.nextId
  {
    hide ArchivesHold, Running, Holding;
  }

  lemma CancelNamed(w: World, h: History)
    requires JobAt(w, RestoreWrite) || JobAt(w, RestoreCheck)
    requires Inv(w, h)
    ensures Named(w.o.content, w.bucket)
    ensures PutNamed(w)
  {
    hide Covered, Frozen, ArchiveHolds, Rebuilt, Named;
    RestoreFilesNamed(w, h, w.o.job.value);
    PutIsNamed(w, h);
  }

  /** However a deletion came about, when it is complete there is no row and no
      live file left. */
  lemma DeletedLeavesNothing(w: World, h: History)
    requires w.o.record.state == Deleted
    requires Reachable(w, h)
    ensures (forall t :: Rows(w.o.content, t) == map[]) && w.bucket == map[]
  {
    hide Reachable, ArchivesHold, Running, JobHolding, WellKept;
    ReachableHolds(w, h);
  }

  /** A step whose job has been replaced or finished. */
  ghost predicate IsAbandoned(w: World) {
    !w.pc.Idle? && !Live(w.o, w.pc.job)
  }

  /** Nothing an abandoned step does, or fails to do, changes a durable table, and
      it stays abandoned until it is gone. */
  lemma AbandonedStepIsInert(w: World, ev: Event)
    requires IsAbandoned(w) && (ev == Answer || ev == Effect || ev == Error || ev == Crash || ev == StartStep)
    ensures Apply(w, ev).o == w.o
    ensures Apply(w, ev).pc.Idle? || IsAbandoned(Apply(w, ev))
  {
    hide ReadVerified, WriteEntry, Between, RoomFor, SnapshotRows, Select, Existing, TableNames, Available, Begin,
         BeginByAdmin, Cancel;
  }

  /** No event revives it: ids are never reused. */
  lemma AbandonedStaysAbandoned(w: World, h: History, ev: Event)
    requires IsAbandoned(w)
    requires Reachable(w, h)
    ensures Apply(w, ev).pc.Idle? || (Apply(w, ev).pc.job.id == w.pc.job.id && IsAbandoned(Apply(w, ev)))
  {
    hide Reachable, Inv, Apply, Live;
    ReachableHolds(w, h);
    if ev == Answer || ev == Effect || ev == Error || ev == Crash || ev == StartStep {
      AbandonedStepIsInert(w, ev);
      AbandonedKeepsJob(w, ev);
    } else {
      OthersKeepPc(w, h, ev);
    }
  }

  /** Requests, ticks and the passing of time do not touch the running step, and a
      job they begin has a new id. */
  lemma OthersKeepPc(w: World, h: History, ev: Event)
    requires IsAbandoned(w)
    requires ev != Answer && ev != Effect && ev != Error && ev != Crash && ev != StartStep
    requires Inv(w, h)
    ensures Apply(w, ev).pc == w.pc && IsAbandoned(Apply(w, ev))
  {
    hide ArchivesHold, Running, Holding, Shape, WellKept, Schema, Available;
    if IsRequest(ev) {
      hide Apply;
      RequestQuiet(w, ev);
    }
  }

  lemma AbandonedKeepsJob(w: World, ev: Event)
    requires IsAbandoned(w) && (ev == Answer || ev == Effect || ev == Error || ev == Crash || ev == StartStep)
    ensures StepStays(w, Apply(w, ev))
  {
    hide Resume, Start, Available, Begin, BeginByAdmin;
    ResumeStepped(w);
    StartStepped(w);
  }
}
