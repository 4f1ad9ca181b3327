/** The report tables as the object that keeps them. `Valid()` is what holds in every
    run: the completed windows chain, and each counts its creations exactly. */
module ReportStores {
  import opened Options
  import Journal
  import opened Windows
  import WindowsProofs

  class ReportStore {
    var windows: map<Report, Window>
    var outbox: map<(Report, nat), nat>
    var rows: map<nat, Journal.Row>
    var jobs: set<Job>
    var now: nat
    ghost var since: map<Report, nat>
    ghost var done: map<Report, seq<Done>>
    ghost var all: map<nat, nat>

    ghost function View(): Store
      reads this
    {
      Store(windows, outbox, rows, jobs, now, since, done, all)
    }

    ghost predicate Valid()
      reads this
    {
      WindowsProofs.Inv(View())
    }

    constructor (now: nat)
      ensures Valid() && windows == map[] && rows == map[] && this.now == now
    {
      windows, outbox, rows, jobs, this.now := map[], map[], map[], {}, now;
      since, done, all := map[], map[], map[];
      new;
      WindowsProofs.InitHolds(View());
    }

    /** A window begins now and ends at the next boundary of its interval. */
    method Ensure(r: Report)
      requires Valid()
      modifies this`windows, this`since
      ensures View() == Windows.Ensure(old(View()), r)
      ensures Valid()
    {
      hide WindowsProofs.Inv;
      WindowsProofs.EnsureKept(View(), r);
      if r in windows { return; }
      var interval := Interval(r);
      windows := windows[r := Window(now, (now / interval + 1) * interval, interval, 0)];
      since := since[r := now];
    }

    method Due(r: Report, until: nat) returns (w: Option<Window>)
      ensures w == if Windows.Due(View(), r, until) then Some(windows[r]) else None
    {
      if r !in windows { return None; }
      return if windows[r].end <= until && windows[r].retry <= now then Some(windows[r]) else None;
    }

    method Enqueue(id: (Report, nat), count: nat)
      modifies this`outbox
      ensures outbox == Windows.Enqueue(old(outbox), id, count)
    {
      if id !in outbox { outbox := outbox[id := count]; }
    }

    method Complete(r: Report, w: Window, count: nat, mail: bool)
      modifies this`windows, this`outbox, this`done
      ensures View() == Windows.Complete(old(View()), r, w, count, mail)
    {
      if r !in windows || windows[r].start != w.start { return; }
      if mail { Enqueue((r, w.end), count); }
      windows := windows[r := windows[r].(start := w.end, end := w.end + w.interval, retry := 0)];
      done := done[r := DoneOf(View(), r) + [Done(w.start, w.end, count)]];
    }

    method Failed(r: Report)
      requires Valid()
      modifies this`windows
      ensures View() == Windows.Failed(old(View()), r)
      ensures Valid()
    {
      hide WindowsProofs.Inv;
      WindowsProofs.FailedKept(View(), r);
      if r in windows { windows := windows[r := windows[r].(retry := now + RETRY)]; }
    }

    /** The query of `count`, row by row. */
    method CountRows(w: Window) returns (n: nat)
      ensures n == Count(rows, w)
    {
      var left := rows.Keys;
      ghost var seen: set<nat> := {};
      n := 0;
      while left != {}
        invariant left <= rows.Keys && seen <= Recorded(rows, w.start, w.end) && n == |seen|
        invariant forall id | id in Recorded(rows, w.start, w.end) :: id in left || id in seen
        invariant forall id | id in seen :: id !in left
        decreases |left|
      {
        var id :| id in left;
        left := left - {id};
        if rows[id].recorded && w.start <= rows[id].created < w.end {
          seen, n := seen + {id}, n + 1;
        }
      }
      assert seen == Recorded(rows, w.start, w.end);
    }

    /** The hourly report after a recovery: its window, counted if it is due. */
    method Prepare(gaps: bool) returns (job: Option<Job>)
      requires Valid()
      modifies this`jobs
      ensures View() == Windows.Prepare(old(View()), gaps)
      ensures Valid()
      ensures job.Some? ==> job.value in jobs && job.value.count == |WindowsProofs.Within(all, job.value.w.start, job.value.w.end)|
    {
      hide WindowsProofs.Inv, Count;
      WindowsProofs.PrepareKept(View(), gaps);
      var w := Due(Hourly, now);
      if w.None? || !Reconciled(rows) { return None; }
      CountedExactly();
      var count := CountRows(w.value);
      job := Some(Job(w.value, count, count > 0 || gaps));
      jobs := jobs + {job.value};
    }

    lemma CountedExactly()
      requires Valid() && Hourly in windows
      ensures Count(rows, windows[Hourly]) == |WindowsProofs.Within(all, windows[Hourly].start, windows[Hourly].end)|
    {
      WindowsProofs.CountIs(View(), Hourly);
    }

    /** The hourly report is sent, or fails, after its wait on other objects. */
    method Finish(job: Job, ok: bool)
      requires Valid() && job in jobs
      modifies this`windows, this`outbox, this`done, this`jobs
      ensures View() == Windows.Finish(old(View()), job, ok)
      ensures Valid()
    {
      hide WindowsProofs.Inv, Windows.Complete;
      WindowsProofs.FinishKept(View(), job, ok);
      WindowsProofs.JobGone(View(), job);
      jobs := jobs - {job};
      if ok { Complete(Hourly, job.w, job.count, job.mail); } else { Failed(Hourly); }
    }

    /** `cron` after a recovery that left nothing pending. */
    method Cron(at: nat)
      requires Reconciled(rows)
      requires Valid()
      modifies this`windows, this`outbox, this`done
      ensures View() == Windows.Cron(old(View()), at)
      ensures Valid()
    {
      hide WindowsProofs.Inv, Windows.Complete, Count;
      WindowsProofs.CronKept(View(), at, 0);
      var until := if at < now then at else now;
      var i := 0;
      while i < 100
        invariant 0 <= i <= 100 && rows == old(rows) && now == old(now)
        invariant CronFrom(View(), at, i) == CronFrom(old(View()), at, 0)
        decreases 100 - i
      {
        var w := Due(ChatCount, until);
        if w.None? { break; }
        var count := CountRows(w.value);
        Complete(ChatCount, w.value, count, true);
        i := i + 1;
      }
    }

    method Cleanup()
      requires Valid()
      modifies this`rows
      ensures View() == Windows.Cleanup(old(View()))
      ensures Valid()
    {
      hide WindowsProofs.Inv;
      WindowsProofs.CleanupKept(View());
      if Hourly !in windows || ChatCount !in windows { return; }
      var a, b := windows[Hourly].start, windows[ChatCount].start;
      var start := if a < b then a else b;
      rows := map id | id in rows && !(rows[id].recorded && rows[id].created < start) :: rows[id];
    }
  }
}
