/** What holds in every run of the lifecycle, whatever crashes, cancels,
    failures, retries and requests it interleaves. */
module LifecycleTheorems {
  import opened Options
  import opened Tables
  import opened Backup
  import opened Lifecycle
  import opened LifecycleInvariant
  import opened LifecycleProofs
  import opened LifecycleSteps
  import opened LifecycleFrames

  // ---- The invariant over runs ----

  lemma CoveredKept(kind: Kind, c: Content, bucket: map<string, Bytes>, store: Store, store': Store, objs: seq<ObjectEntry>, j: Job)
    requires Grows(store, store') && Covered(kind, c, bucket, store, objs, j)
    ensures Covered(kind, c, bucket, store', objs, j)
  {
    hide Progress, AllTables;
    forall i | 0 <= i < |objs| ensures EntryStored(store', j.id, i, objs[i]) {
      assert EntryStored(store, j.id, i, objs[i]);
    }
  }

  lemma StoreGrewHolds(w: World, h: History, store': Store, j: Job)
    requires Grows(w.store, store') && StageFits(j)
    requires Holds(w, h, j)
    ensures JobHolding(w.o.record.kind, w.o.content, w.bucket, store', w.o.objects, w.o.archives, h, j)
  {
    hide Covered, WellKept, SnapshotOf, Rebuilt;
    if BackingUp(j.stage) {
      CoveredKept(w.o.record.kind, w.o.content, w.bucket, w.store, store', ObjectsOf(w.o, j.id), j);
    }
  }

  lemma StoreGrewStep(w: World, store': Store, objs: seq<ObjectEntry>, j: Job)
    requires Grows(w.store, store')
    requires StepOk(w.pc, w.o.record.kind, w.o.content, w.bucket, w.store, objs, j)
    ensures StepOk(w.pc, w.o.record.kind, w.o.content, w.bucket, store', objs, j)
  {
    hide Due, FromTable, FilesOf;
    if ManifestFor(w.store, j).Some? { assert ManifestFor(store', j) == ManifestFor(w.store, j); }
  }

  lemma StoreGrewArchives(kind: Kind, archives: map<nat, Receipt>, store: Store, store': Store, snaps: map<nat, Snapshot>)
    requires Grows(store, store') && ArchivesHold(kind, archives, store, snaps)
    ensures ArchivesHold(kind, archives, store', snaps)
  {
    hide Grows, ArchiveHolds, WellKept;
    forall id | id in archives ensures ArchiveHolds(store', archives[id], snaps[id]) {
      ArchiveKept(store, store', archives[id], snaps[id]);
    }
  }

  lemma StoreGrewKept(w: World, h: History, store': Store)
    requires Grows(w.store, store')
    requires Inv(w, h)
    ensures Inv(w.(store := store'), h)
  {
    hide Grows, StepOk, JobHolding, ArchivesHold, WellKept;
    StoreGrewArchives(w.o.record.kind, w.o.archives, w.store, store', h.snaps);
    if w.o.job.Some? {
      StoredJob(w, h);
      StoreGrewHolds(w, h, store', w.o.job.value);
      if LiveStep(w) {
        StepKnows(w, h);
        StoreGrewStep(w, store', ObjectsOf(w.o, w.pc.job.id), w.o.job.value);
      }
    }
  }

  lemma TimeKept(w: World, h: History, ms: nat)
    requires Inv(w, h)
    ensures Inv(w.(now := w.now + ms), h)
  {
    hide ArchivesHold, Holding, Running;
  }

  lemma EditKept(w: World, h: History, version: nat, policy: Policy)
    requires Inv(w, h)
    ensures Inv(EditPolicy(w, version, policy), Remember(h, w, EditPolicy(w, version, policy)))
  {
    hide Inv, Remember, Save, Tick;
    TickKept(w, h);
    var w1 := Tick(w);
    TickSettles(w, h);
    if w1.o.record.state != Active || w1.o.job.Some? || version != w1.o.record.policyVersion {
    } else {
      var r := w1.o.record.(policy := policy, policyVersion := w1.o.record.policyVersion + 1);
      RecordKept(w1, h, r, 2);
      TickKept(w1.(o := Save(w1.o, r, 2, w1.now)), h);
      TickIds(w, h, w1.(o := Save(w1.o, r, 2, w1.now)));
    }
  }

  /** Unless a tick begins an expiry it changes nothing. */
  lemma TickSettles(w: World, h: History)
    requires Inv(w, h)
    ensures Tick(w).o.job.None? ==> Tick(w) == w && Remember(h, w, Tick(w)) == h
  {
    hide Inv;
  }

  lemma TickIds(w: World, h: History, w1: World)
    requires w1.nextId == w.nextId
    ensures Remember(h, w, Tick(w1)) == Remember(h, w1, Tick(w1))
  {
    hide Tick, SnapshotOf;
  }

  lemma BeginByAdminKept(w: World, h: History, action: Action, archive: nat)
    requires Inv(w, h)
    ensures Inv(BeginByAdmin(w, action, archive), Remember(h, w, BeginByAdmin(w, action, archive)))
  {
    hide Inv, Remember, Begin, CanBegin, Tick;
    TickKept(w, h);
    TickSettles(w, h);
    var w1 := Tick(w);
    BeginRefused(w1);
    if w1.o.job.None? {
      SelfNamed(w, h);
      if action != Restore {
        BeginKept(w, h, action, Admin, None);
      } else if archive in w.o.archives {
        BeginKept(w, h, Restore, Admin, Some(w.o.archives[archive]));
      }
    }
  }

  lemma BeginRefused(w: World)
    ensures w.o.job.Some? ==> forall action, reason, receipt :: Begin(w, action, reason, receipt) == w
  {
  }

  predicate SelfNaming(archives: map<nat, Receipt>) {
    forall id | id in archives :: archives[id].archive == id
  }

  lemma SelfNamed(w: World, h: History)
    requires Inv(w, h)
    ensures SelfNaming(w.o.archives)
    ensures Remember(h, w, w) == h
  {
    hide ArchiveHolds, Holding, Running, WellKept;
  }

  /** Without a job it does not matter what the last one froze. */
  lemma ForgetBegin(w: World, h: History, h': History)
    requires w.o.job.None? && ArchivesHold(w.o.record.kind, w.o.archives, w.store, h.snaps)
    requires forall id | id in h.snaps :: id < w.nextId
    requires Inv(w, h')
    ensures Inv(w, h)
  {
    hide ArchivesHold, Running, JobHolding;
  }

  /** Cancelling an expiry that this very request began. */
  lemma CancelOfNew(w: World, h: History)
    requires w.o.job.None? && Tick(w).o.job.Some? && Inv(Cancel(Tick(w)), Remember(h, w, Tick(w)))
    requires Inv(w, h)
    ensures Inv(Cancel(Tick(w)), Remember(h, w, Cancel(Tick(w))))
  {
    hide Running, Holding, ArchivesHold, Shape, Begin, Cancel, ExpiresAt, SnapshotOf;
    var w1 := Tick(w);
    BeginParts(w, if w.o.record.policy.archiveOnTtl then ArchiveDelete else Delete, Ttl, None);
    CancelMoved(w1);
    if w1.o.job.value.stage != Erase {
      CancelParts(w1);
      ForgetBegin(Cancel(w1), h, Remember(h, w, w1));
    }
  }

  lemma CanceledKept(w: World, h: History)
    requires Inv(w, h)
    ensures Inv(Cancel(Tick(w)), Remember(h, w, Cancel(Tick(w))))
  {
    hide Inv, Cancel, Remember, Overdue;
    TickKept(w, h);
    TickSettles(w, h);
    var w1 := Tick(w);
    if w1 == w {
      CancelKept(w, h);
    } else {
      CancelAgain(w1, Remember(h, w, w1));
      CancelOfNew(w, h);
    }
  }

  lemma CancelAgain(w: World, h: History)
    requires Inv(w, h)
    ensures Inv(Cancel(w), h)
  {
    hide Inv, Remember;
    if w.o.job.Some? && w.o.job.value.stage != Erase {
      match w.o.job.value.stage {
        case RestoreWrite => CancelWrite(w, h);
        case RestoreCheck => CancelWrite(w, h);
        case _ => CancelBackup(w, h);
      }
    }
  }

  lemma RetriedKept(w: World, h: History)
    requires Inv(w, h)
    ensures Inv(Apply(w, Retried), Remember(h, w, Apply(w, Retried)))
  {
    hide Inv, Remember, Tick, Available, Begin, BeginByAdmin;
    TickKept(w, h);
    TickSettles(w, h);
    var w1 := Tick(w);
    if w1.o.job.Some? {
      RecordKept(w1, Remember(h, w, w1), w1.o.record, 2);
      RememberJob(h, w, w1, Apply(w, Retried));
    }
  }

  lemma RememberJob(h: History, w: World, w1: World, w2: World)
    requires w1.o.job == w2.o.job && w1.o.content == w2.o.content && w1.bucket == w2.bucket
    ensures Remember(h, w, w1) == Remember(h, w, w2)
  {
  }

  /** Saving the record, and a step that goes on, begin no job. */
  lemma StepBeginsNothing(w: World, h: History, ev: Event)
    requires ev == StartStep || ev == Effect || ev == Answer || ev == Error || ev == Crash || ev.StoreGrew? || ev.TimePassed? || ev.Request?
    requires Inv(w, h)
    ensures Remember(h, w, Apply(w, ev)) == h
  {
    hide ArchivesHold, Holding, Running, Apply, Ids;
    StepIds(w, h, ev);
  }

  lemma StepIds(w: World, h: History, ev: Event)
    requires ev == StartStep || ev == Effect || ev == Answer || ev == Error || ev == Crash || ev.StoreGrew? || ev.TimePassed? || ev.Request?
    requires Ids(w, h)
    ensures !ArchiveBegan(w, Apply(w, ev))
  {
    hide Start, Resume, Failed, WellKept, Schema, Finish, Saved;
    StartStepped(w);
    ResumeStepped(w);
    MoversStep(w);
  }

  lemma EventKept(w: World, h: History, ev: Event)
    requires Inv(w, h)
    ensures Inv(Apply(w, ev), Remember(h, w, Apply(w, ev)))
  {
    hide Inv, Remember, WellKept, Schema, Available, Begin, BeginByAdmin, CanBegin;
    match ev {
      case StartStep => StepBeginsNothing(w, h, ev); StartKept(w, h);
      case Effect => StepBeginsNothing(w, h, ev); LandKept(w, h);
      case Answer => StepBeginsNothing(w, h, ev); ResumeKept(w, h);
      case Error => StepBeginsNothing(w, h, ev); FailedKept(w, h);
      case Crash => StepBeginsNothing(w, h, ev); IdleKept(w, h);
      case StoreGrew(key, blob) =>
        StepBeginsNothing(w, h, ev);
        if key !in w.store { StoreGrewKept(w, h, w.store[key := blob]); }
      case TimePassed(ms) => StepBeginsNothing(w, h, ev); TimeKept(w, h, ms);
      case Request(content, bucket) =>
        StepBeginsNothing(w, h, ev);
        if WellKept(w.o.record.kind, content, bucket) && Schema(w.o.record.kind, content) { MutateKept(w, h, content, bucket); }
      case Ticked => TickKept(w, h);
      case AdminBegin(action, archive) => BeginByAdminKept(w, h, action, archive);
      case CapabilityDeleted =>
        if Available(w.o.record, w.now) { BeginKept(w, h, Delete, CapabilityDelete, None); } else { SelfNamed(w, h); }
      case Canceled => CanceledKept(w, h);
      case PolicyEdited(version, policy) => EditKept(w, h, version, policy);
      case Retried => RetriedKept(w, h);
    }
  }

  lemma {:induction false} RunKept(w: World, h: History, evs: seq<Event>)
    requires Inv(w, h)
    ensures Inv(Run(w, h, evs).0, Run(w, h, evs).1)
    decreases |evs|
  {
    hide Inv, Apply, Remember;
    if evs != [] {
      EventKept(w, h, evs[0]);
      RunKept(Apply(w, evs[0]), Remember(h, w, Apply(w, evs[0])), evs[1..]);
    }
  }

  const NOTHING_YET := History(map[], map[], map[])

  lemma InitHolds(w: World)
    requires Init(w)
    ensures Inv(w, NOTHING_YET)
  {
    hide Schema;
  }
}
