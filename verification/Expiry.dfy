/** Expiry cannot be dodged, and starting it never fails. */
module Expiry {
  import opened Options
  import opened Tables
  import opened Backup
  import opened Lifecycle
  import opened LifecycleInvariant
  import opened LifecycleResults

  /** In every reachable state a job exists exactly when the resource is neither
      active nor deleted. */
  lemma JobExactlyWhenBusy(w: World, h: History)
    requires Reachable(w, h)
    ensures w.o.job.Some? <==> w.o.record.state != Active && w.o.record.state != Deleted
  {
    hide Reachable, Ids, ArchivesHold, Holding, Running;
    ReachableHolds(w, h);
  }

  lemma TickBegins(w: World)
    requires Overdue(w.o.record, w.now) && w.o.job.None?
    ensures var w' := Tick(w);
      && w'.o.job == Some(NewJob(w, if w.o.record.policy.archiveOnTtl then ArchiveDelete else Delete, None))
      && w'.o.record.state == Expiring && w'.o.record.reason == Some(Ttl) && w'.o.record.policy == w.o.record.policy
      && w'.o.content == w.o.content
  {
    hide ExpiresAt;
  }

  /** Hence a due tick always finds `begin` willing: expiry starts at once. */
  lemma TickStartsExpiry(w: World, h: History)
    requires Overdue(w.o.record, w.now)
    requires Reachable(w, h)
    ensures var w' := Tick(w);
            && w'.o.record.state == Expiring && w'.o.job.Some? && w'.o.content == w.o.content
            && w'.o.record.policy == w.o.record.policy
            && w'.o.job.value.action == (if w.o.record.policy.archiveOnTtl then ArchiveDelete else Delete)
  {
    hide Reachable, Tick;
    JobExactlyWhenBusy(w, h);
    TickBegins(w);
  }

  /** Everything that decides the deadline, and the content. */
  ghost predicate Untouched(w: World, w': World) {
    && w'.o.content == w.o.content
    && w'.o.record.policy == w.o.record.policy
    && w'.o.record.policyVersion == w.o.record.policyVersion
    && w'.o.record.createdAt == w.o.record.createdAt
    && w'.o.record.lastActivityAt == w.o.record.lastActivityAt
    && w.now <= w'.now
  }

  ghost predicate StillOverdue(w: World, w': World) {
    Untouched(w, w') && Overdue(w'.o.record, w'.now)
  }

  ghost predicate Began(w: World, w': World) {
    w'.o.record.state == Expiring && w'.o.content == w.o.content && w'.o.record.policy == w.o.record.policy
  }

  lemma DeadlineStays(w: World, w': World)
    requires Overdue(w.o.record, w.now) && Untouched(w, w') && w'.o.record.state == Active
    ensures Overdue(w'.o.record, w'.now)
  {
  }

  lemma StepUntouched(w: World, ev: Event)
    requires w.o.job.None?
    requires ev == StartStep || ev == Effect || ev == Answer || ev == Error || ev == Crash || ev.StoreGrew? || ev.TimePassed?
    ensures Apply(w, ev).o == w.o && w.now <= Apply(w, ev).now
  {
    hide ReadVerified, WriteEntry, Between, RoomFor, SnapshotRows, Select, Existing, TableNames;
  }

  /** Once an active resource is past its deadline every event leaves its content,
      policy and activity alone until the expiry begins. Only an administrator's
      cancel, which itself begins and cancels that expiry, brings it back, and then
      with expiry paused. */
  lemma ExpiryNotDodged(w: World, h: History, ev: Event)
    requires Overdue(w.o.record, w.now)
    requires Reachable(w, h)
    ensures var w' := Apply(w, ev);
            || StillOverdue(w, w')
            || Began(w, w')
            || (ev == Canceled && w'.o.content == w.o.content && w'.o.record.policy == w.o.record.policy.(paused := true))
  {
    hide Reachable, Begin, ExpiresAt;
    JobExactlyWhenBusy(w, h);
    TickStartsExpiry(w, h);
    var w1 := Tick(w);
    match ev {
      case Ticked =>
      case AdminBegin(action, archive) => BeginRefusedBusy(w1);
      case CapabilityDeleted =>
      case Canceled => CancelPauses(w, h);
      case PolicyEdited(_, _) =>
      case Retried =>
      case Request(_, _) =>
      case _ => StepUntouched(w, ev); DeadlineStays(w, Apply(w, ev));
    }
  }

  lemma BeginRefusedBusy(w: World)
    requires w.o.job.Some?
    ensures forall action, reason, receipt :: Begin(w, action, reason, receipt) == w
  {
  }

  lemma CancelPauses(w: World, h: History)
    requires Overdue(w.o.record, w.now)
    requires Reachable(w, h)
    ensures var w' := Cancel(Tick(w));
            Began(w, w') || (w'.o.content == w.o.content && w'.o.record.policy == w.o.record.policy.(paused := true))
  {
    hide Reachable, ExpiresAt, Tick;
    JobExactlyWhenBusy(w, h);
    TickBegins(w);
  }

  /** Over runs: as long as no administrator cancels, an overdue resource either has
      begun to expire at some point, untouched until then, or is still waiting,
      untouched. */
  lemma {:induction false} OverdueRuns(w: World, h: History, evs: seq<Event>)
    requires Overdue(w.o.record, w.now) && Canceled !in evs
    requires Reachable(w, h)
    ensures StillOverdue(w, Run(w, h, evs).0)
            || exists k :: 0 <= k <= |evs| && Began(w, Run(w, h, evs[..k]).0)
    decreases |evs|
  {
    hide Reachable, Apply, Remember, Overdue;
    if evs != [] {
      var w1, h1 := Apply(w, evs[0]), Remember(h, w, Apply(w, evs[0]));
      ExpiryNotDodged(w, h, evs[0]);
      OneEvent(w, h, evs[0]);
      RunReaches(w, h, [evs[0]]);
      assert evs[..1] == [evs[0]];
      if Began(w, w1) {
        assert Began(w, Run(w, h, evs[..1]).0);
      } else {
        OverdueRuns(w1, h1, evs[1..]);
        if k :| 0 <= k <= |evs[1..]| && Began(w1, Run(w1, h1, evs[1..][..k]).0) {
          assert evs[..k + 1][0] == evs[0] && evs[..k + 1][1..] == evs[1..][..k];
          assert Run(w, h, evs[..k + 1]) == Run(w1, h1, evs[1..][..k]);
          assert Began(w, Run(w, h, evs[..k + 1]).0);
        }
      }
    } else {
      assert evs == [];
    }
  }
}
