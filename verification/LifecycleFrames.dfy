/** What steps and requests leave alone: one account of every transition for all
    proofs that only need to know that. */
module LifecycleFrames {
  import opened Tables
  import opened Backup
  import opened Lifecycle
  import opened LifecycleProofs
  import opened LifecycleSteps

  /** The record stays as it is, or a new version is saved and marked dirty. */
  ghost predicate Moved(w: World, w': World) {
    || (w'.o.record == w.o.record && w'.o.dirty == w.o.dirty)
    || (w.o.record.version < w'.o.record.version && 0 < w'.o.dirty)
  }

  // ---- Steps ----

  /** The step ends, or it is still the same one and live if it was, or it starts
      for the stored job. */
  ghost predicate StepStays(w: World, w': World) {
    || w'.pc.Idle?
    || (if w.pc.Idle? then LiveStep(w') else w'.pc.job.id == w.pc.job.id && (LiveStep(w) ==> LiveStep(w')))
  }

  /** Nothing outside the object, and no job but the running one. */
  ghost predicate Stepped(w: World, w': World) {
    && w'.store == w.store && w'.bucket == w.bucket && w'.nextId == w.nextId && w'.o.record.kind == w.o.record.kind
    && (w'.o.job.Some? ==> w.o.job.Some? && w'.o.job.value.id == w.o.job.value.id)
    && Moved(w, w') && StepStays(w, w')
  }

  lemma MoversStep(w: World)
    ensures forall j :: Stepped(w, Saved(w, j))
    ensures forall j, c :: Stepped(w, Saved(w.(o := w.o.(content := c)), j))
    ensures forall j, state, clear :: Stepped(w, Finish(w, j, state, clear))
    ensures Stepped(w, Failed(w))
    ensures Stepped(w, w.(pc := Idle))
  {
  }

  /** Whatever else the step waits for next. */
  ghost predicate Waits(w: World, pc: Pc) {
    !pc.Idle? && if w.pc.Idle? then Live(w.o, pc.job) else pc.job.id == w.pc.job.id
  }

  lemma WaitsStep(w: World)
    ensures forall pc | Waits(w, pc) :: Stepped(w, w.(pc := pc))
    ensures forall pc, objects | Waits(w, pc) :: Stepped(w, w.(o := w.o.(objects := objects), pc := pc))
    ensures forall pc, content | Waits(w, pc) :: Stepped(w, w.(o := w.o.(content := content), pc := pc))
    ensures w.pc.Idle? ==> Stepped(w, w)
  {
  }

  lemma StartStepped(w: World)
    ensures w.pc.Idle? ==> Stepped(w, Start(w))
    ensures !w.pc.Idle? ==> Start(w) == w
  {
    hide Saved, Finish, SnapshotRows, Select, Existing, TableNames, Rows, Stepped;
    MoversStep(w);
    WaitsStep(w);
  }

  lemma HasManifestStepped(w: World, m: Manifest)
    requires w.pc.NeedManifest?
    ensures Stepped(w, HasManifest(w, w.pc.job, m))
  {
    hide Saved, Finish, Failed, RoomFor, Stepped, Live;
    MoversStep(w);
    WaitsStep(w);
  }

  lemma HasObjectStepped(w: World, e: ObjectEntry, blob: Blob)
    requires w.pc.NeedObject?
    ensures Stepped(w, HasObject(w, w.pc.job, e, blob))
  {
    hide Saved, Failed, WriteEntry, Between, Rows, Stepped, Finish, Live;
    MoversStep(w);
    WaitsStep(w);
  }

  lemma ManifestStepped(w: World)
    requires ManifestStored(w) && LiveStep(w)
    ensures Stepped(w, Resume(w))
  {
    hide Finish, Saved, Resume, Failed;
    AnswerManifestIs(w, w.pc.job, w.pc.manifest);
    MoversStep(Receipted(w, w.pc.job, w.pc.manifest));
  }

  lemma ErasedStepped(w: World)
    requires w.pc.FileErased?
    ensures Stepped(w, Resume(w))
  {
    hide Rows;
  }

  lemma ResumeStepped(w: World)
    ensures Stepped(w, Resume(w))
  {
    hide Saved, Finish, Failed, HasManifest, HasObject, ReadVerified, ManifestFor, PutAt, Rows, Stepped;
    MoversStep(w);
    WaitsStep(w);
    match w.pc {
      case PutManifest(_, _) => if ManifestStored(w) && LiveStep(w) { ManifestStepped(w); }
      case NeedManifest(job) => if ManifestFor(w.store, job).Some? { HasManifestStepped(w, ManifestFor(w.store, job).value); }
      case NeedObject(job, m) =>
        if job.index < |m.objects| {
          var read := ReadVerified(w.store, m.objects[job.index].key, m.objects[job.index].hash);
          if read.Some? { HasObjectStepped(w, m.objects[job.index], read.value); }
        }
      case FileErased(_, _) => ErasedStepped(w);
      case Idle => ResumeStays(w); Unmoved(w);
      case EraseFile(_, _) => ResumeStays(w); Unmoved(w);
      case PutFile(_, _, _) => ResumeStays(w); Unmoved(w);
      case _ =>
    }
  }

  lemma Unmoved(w: World)
    ensures Stepped(w, w)
  {
  }

  // ---- Requests ----

  /** Content, files and archives stay, and there is no job, the old one unchanged,
      or a new one at its start. */
  ghost predicate Quiet(w: World, w': World) {
    && w'.pc == w.pc && w'.bucket == w.bucket && w'.store == w.store && w.nextId <= w'.nextId
    && w'.o.content == w.o.content && w'.o.archives == w.o.archives && w'.o.record.kind == w.o.record.kind
    && (forall id | id in w'.o.objects :: id in w.o.objects)
    && (w'.o.job.Some? ==>
          || (w'.o.job == w.o.job && w'.o.objects == w.o.objects)
          || (w.nextId <= w'.o.job.value.id && w'.o.job.value.stage != RestoreWrite && w'.o.job.value.stage != RestoreCheck))
    && Moved(w, w')
  }

  lemma QuietChains(w: World, w1: World, w2: World)
    requires Quiet(w, w1) && Quiet(w1, w2)
    ensures Quiet(w, w2)
  {
  }

  lemma BeginQuiet(w: World)
    ensures forall action, reason, receipt :: Quiet(w, Begin(w, action, reason, receipt))
    ensures Quiet(w, Tick(w))
    ensures Quiet(w, w)
  {
    hide Overdue;
  }

  lemma CancelMoved(w: World)
    ensures Moved(w, Cancel(w))
    ensures w.o.job.None? || w.o.job.value.stage == Erase ==> Cancel(w) == w
  {
  }

  lemma CancelQuiet(w: World)
    ensures Quiet(w, Cancel(w))
  {
    hide Cancel, Moved;
    CancelMoved(w);
    if w.o.job.Some? && w.o.job.value.stage != Erase { CancelParts(w); }
  }

  lemma SaveQuiet(w: World, r: Record, dirty: nat)
    requires r.kind == w.o.record.kind && r.version == w.o.record.version && 0 < dirty
    ensures Quiet(w, w.(o := Save(w.o, r, dirty, w.now)))
  {
  }

  ghost predicate IsRequest(ev: Event) {
    ev.Ticked? || ev.AdminBegin? || ev.CapabilityDeleted? || ev.Canceled? || ev.PolicyEdited? || ev.Retried?
  }

  lemma RequestQuiet(w: World, ev: Event)
    requires IsRequest(ev)
    ensures Quiet(w, Apply(w, ev))
  {
    hide Begin, Cancel, Available, Quiet, Tick, Save;
    var w1 := Tick(w);
    BeginQuiet(w);
    BeginQuiet(w1);
    CancelQuiet(w1);
    match ev {
      case AdminBegin(_, _) => QuietChains(w, w1, Apply(w, ev));
      case Canceled => QuietChains(w, w1, Cancel(w1));
      case PolicyEdited(_, policy) =>
        var r := w1.o.record.(policy := policy, policyVersion := w1.o.record.policyVersion + 1);
        var w2 := w1.(o := Save(w1.o, r, 2, w1.now));
        SaveQuiet(w1, r, 2);
        BeginQuiet(w2);
        QuietChains(w1, w2, Tick(w2));
        QuietChains(w, w1, Tick(w2));
      case Retried =>
        SaveQuiet(w1, w1.o.record, 2);
        QuietChains(w, w1, w1.(o := Save(w1.o, w1.o.record, 2, w1.now)));
      case _ =>
    }
  }
}
