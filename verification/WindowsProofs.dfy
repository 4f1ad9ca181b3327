/** Completed windows follow one another without gap or overlap, and each counts
    every creation in it exactly once. */
module WindowsProofs {
  import Journal
  import opened Windows

  /** The creations ever recorded whose time lies in an interval. */
  function Within(all: map<nat, nat>, a: nat, b: nat): set<nat> {
    set id | id in all && a <= all[id] < b
  }

  ghost predicate Chain(done: seq<Done>, from: nat, to: nat) {
    if done == [] then from == to
    else done[0].start == from && done[0].start < done[0].end && Chain(done[1..], done[0].end, to)
  }

  ghost predicate Exact(done: seq<Done>, all: map<nat, nat>) {
    forall d | d in done :: d.count == |Within(all, d.start, d.end)|
  }

  ghost predicate WindowOk(s: Store, r: Report) {
    r in s.windows ==>
      (r in s.since && s.windows[r].start < s.windows[r].end && s.windows[r].interval > 0 && s.windows[r].start <= s.now
       && s.since[r] <= s.windows[r].start
       && Chain(DoneOf(s, r), s.since[r], s.windows[r].start)
       && Exact(DoneOf(s, r), s.all)
       && (forall d | d in DoneOf(s, r) :: d.end <= s.windows[r].start)
       && (forall id | id in s.rows && !s.rows[id].recorded :: s.windows[r].start <= s.rows[id].created)
       && (forall id | id in s.all :: s.since[r] <= s.all[id])
       && (forall e | (r, e) in s.outbox :: e <= s.windows[r].start))
  }

  /** A prepared count is that of its window, and stays so. */
  ghost predicate JobOk(s: Store, j: Job) {
    && Hourly in s.windows && j.w.start <= s.windows[Hourly].start
    && (j.w.start == s.windows[Hourly].start ==>
          (j.w.end == s.windows[Hourly].end && j.w.interval == s.windows[Hourly].interval && j.w.end <= s.now
           && j.count == |Within(s.all, j.w.start, j.w.end)|
           && (forall id | id in s.rows && !s.rows[id].recorded :: j.w.end <= s.rows[id].created)))
  }

  ghost predicate RowsOk(s: Store) {
    && (forall id | id in s.rows :: s.rows[id].created <= s.now && Hourly in s.windows && ChatCount in s.windows)
    && (forall id | id in s.rows && s.rows[id].recorded :: id in s.all && s.all[id] == s.rows[id].created)
    && (forall id | id in s.rows && !s.rows[id].recorded :: id !in s.all)
    && (forall id | id in s.all :: Hourly in s.windows && ChatCount in s.windows
          && (s.all[id] >= s.windows[Hourly].start || s.all[id] >= s.windows[ChatCount].start ==>
                (id in s.rows && s.rows[id].recorded)))
  }

  ghost predicate Inv(s: Store) {
    && WindowOk(s, Hourly) && WindowOk(s, ChatCount) && RowsOk(s)
    && (forall r | r in s.done :: r in s.windows)
    && (forall j | j in s.jobs :: JobOk(s, j))
    && (forall r, e | (r, e) in s.outbox :: r in s.windows)
  }

  lemma {:induction false} ChainEnd(done: seq<Done>, from: nat, to: nat, d: Done)
    requires Chain(done, from, to) && d.start == to && d.start < d.end
    ensures Chain(done + [d], from, d.end)
    decreases |done|
  {
    if done == [] {
      assert done + [d] == [d];
    } else {
      assert (done + [d])[1..] == done[1..] + [d];
      ChainEnd(done[1..], done[0].end, to, d);
    }
  }

  /** What the query counts is what was ever recorded in the window. */
  lemma CountIs(s: Store, r: Report)
    requires r in s.windows
    requires Inv(s)
    ensures Recorded(s.rows, s.windows[r].start, s.windows[r].end) == Within(s.all, s.windows[r].start, s.windows[r].end)
  {
  }

  // ---- What leaves windows and counts alone ----

  /** Apart from rows, retries and the clock nothing changes, and what is new among the
      rows still pending is from now. */
  ghost predicate Alike(s: Store, s': Store) {
    && s'.since == s.since && s'.done == s.done && s'.outbox == s.outbox && s'.all == s.all && s.now <= s'.now
    && (forall r :: r in s'.windows <==> r in s.windows)
    && (forall r | r in s.windows :: s'.windows[r] == s.windows[r].(retry := s'.windows[r].retry))
    && (forall id | id in s'.rows && !s'.rows[id].recorded ::
          s'.rows[id].created == s.now || (id in s.rows && !s.rows[id].recorded && s'.rows[id].created == s.rows[id].created))
  }

  lemma AlikeWindow(s: Store, s': Store, r: Report)
    requires Alike(s, s') && WindowOk(s, r)
    ensures WindowOk(s', r)
  {
    hide Chain, Exact;
  }

  lemma AlikeJob(s: Store, s': Store, j: Job)
    requires Alike(s, s') && JobOk(s, j)
    ensures JobOk(s', j)
  {
    hide Within;
  }

  lemma AlikeKept(s: Store, s': Store)
    requires Alike(s, s') && RowsOk(s') && forall j | j in s'.jobs && j !in s.jobs :: JobOk(s', j)
    requires Inv(s)
    ensures Inv(s')
  {
    hide WindowOk, JobOk, RowsOk;
    AlikeWindow(s, s', Hourly);
    AlikeWindow(s, s', ChatCount);
    forall j | j in s'.jobs && j in s.jobs ensures JobOk(s', j) { AlikeJob(s, s', j); }
  }

  lemma CompletedWindow(s: Store, r: Report, w: Window, count: nat, mail: bool)
    requires WindowOk(s, r) && r in s.windows
    requires w.start == s.windows[r].start && w.end == s.windows[r].end && w.interval == s.windows[r].interval && w.end <= s.now
    requires count == |Within(s.all, w.start, w.end)| && (forall id | id in s.rows && !s.rows[id].recorded :: w.end <= s.rows[id].created)
    ensures WindowOk(Complete(s, r, w, count, mail), r)
  {
    hide Within, Chain;
    ChainEnd(DoneOf(s, r), s.since[r], w.start, Done(w.start, w.end, count));
  }

  lemma OtherWindow(s: Store, r: Report, w: Window, count: nat, mail: bool, other: Report)
    requires WindowOk(s, other) && other != r
    ensures WindowOk(Complete(s, r, w, count, mail), other)
  {
    hide Within, Chain;
  }

  lemma CompleteKept(s: Store, r: Report, w: Window, count: nat, mail: bool)
    requires r in s.windows
    requires w.start == s.windows[r].start ==>
      (w.end == s.windows[r].end && w.interval == s.windows[r].interval && w.end <= s.now && count == |Within(s.all, w.start, w.end)|
       && (forall id | id in s.rows && !s.rows[id].recorded :: w.end <= s.rows[id].created))
    requires Inv(s)
    ensures Inv(Complete(s, r, w, count, mail))
  {
    hide Within, WindowOk;
    if w.start == s.windows[r].start {
      var s' := Complete(s, r, w, count, mail);
      WindowRuns(s, r);
      CompletedWindow(s, r, w, count, mail);
      OtherWindow(s, r, w, count, mail, if r.Hourly? then ChatCount else Hourly);
      assert RowsOk(s');
      forall j | j in s'.jobs ensures JobOk(s', j) { assert JobOk(s, j); }
    }
  }

  lemma WindowRuns(s: Store, r: Report)
    requires WindowOk(s, r) && r in s.windows
    ensures s.windows[r].start < s.windows[r].end
  {
    hide Chain, Exact;
  }

  lemma FailedKept(s: Store, r: Report)
    requires Inv(s)
    ensures Inv(Failed(s, r))
  {
    hide WindowOk, JobOk;
    AlikeKept(s, Failed(s, r));
  }

  lemma FinishKept(s: Store, j: Job, ok: bool)
    requires Inv(s)
    ensures Inv(Finish(s, j, ok))
  {
    hide Complete, Failed;
    if j in s.jobs {
      assert JobOk(s, j);
      var s1 := s.(jobs := s.jobs - {j});
      JobGone(s, j);
      if ok { CompleteKept(s1, Hourly, j.w, j.count, j.mail); } else { FailedKept(s1, Hourly); }
    }
  }

  lemma JobGone(s: Store, j: Job)
    requires Inv(s)
    ensures Inv(s.(jobs := s.jobs - {j}))
  {
    hide WindowOk, JobOk;
    AlikeKept(s, s.(jobs := s.jobs - {j}));
  }

  lemma PrepareKept(s: Store, gaps: bool)
    requires Inv(s)
    ensures Inv(Prepare(s, gaps))
  {
    hide WindowOk, Within, Recorded;
    if Reconciled(s.rows) && Due(s, Hourly, s.now) {
      CountIs(s, Hourly);
      AlikeKept(s, Prepare(s, gaps));
    }
  }

  lemma {:induction false} CronKept(s: Store, at: nat, i: nat)
    requires Reconciled(s.rows)
    requires Inv(s)
    ensures Inv(CronFrom(s, at, i))
    decreases 100 - i
  {
    hide Within, Recorded, Inv, Complete;
    var until := if at < s.now then at else s.now;
    if i < 100 && Due(s, ChatCount, until) {
      CountIs(s, ChatCount);
      var w, count := s.windows[ChatCount], Count(s.rows, s.windows[ChatCount]);
      CompleteKept(s, ChatCount, w, count, true);
      CompleteRows(s, ChatCount, w, count, true);
      CronKept(Complete(s, ChatCount, w, count, true), at, i + 1);
    }
  }

  lemma CompleteRows(s: Store, r: Report, w: Window, count: nat, mail: bool)
    ensures Complete(s, r, w, count, mail).rows == s.rows
  {
  }

  lemma EnsureKept(s: Store, r: Report)
    requires Inv(s)
    ensures Inv(Ensure(s, r))
  {
    hide Within;
    if r !in s.windows {
      var s' := Ensure(s, r);
      assert DoneOf(s', r) == [];
      var other := if r.Hourly? then ChatCount else Hourly;
      assert WindowOk(s', other) by { assert WindowOk(s, other); }
      NextBoundary(s.now, Interval(r));
      forall j | j in s'.jobs ensures JobOk(s', j) { assert JobOk(s, j); }
    }
  }

  lemma NextBoundary(now: nat, interval: nat)
    requires interval > 0
    ensures now < (now / interval + 1) * interval
  {
    assert now == now / interval * interval + now % interval;
    assert (now / interval + 1) * interval == now / interval * interval + interval;
  }

  lemma InsertedKept(s: Store, id: nat, row: Journal.Row)
    requires id !in s.rows && id !in s.all && Hourly in s.windows && ChatCount in s.windows
    requires row.created == s.now && !row.recorded
    requires Inv(s)
    ensures Inv(s.(rows := s.rows[id := row]))
  {
    hide WindowOk, JobOk;
    AlikeKept(s, s.(rows := s.rows[id := row]));
  }

  lemma OutsideWindow(all: map<nat, nat>, id: nat, created: nat, a: nat, b: nat)
    requires created >= b && id !in all
    ensures Within(all[id := created], a, b) == Within(all, a, b)
  {
  }

  lemma RecordedWindow(s: Store, id: nat, r: Report)
    requires Journal.Pending(s.rows, id) && WindowOk(s, r)
    requires Inv(s)
    ensures WindowOk(Apply(s, Record(id)), r)
  {
    hide Within, JobOk, Chain;
    var s' := Apply(s, Record(id));
    if r in s.windows {
      forall d | d in DoneOf(s, r) ensures d.count == |Within(s'.all, d.start, d.end)| {
        OutsideWindow(s.all, id, s.rows[id].created, d.start, d.end);
      }
    }
  }

  lemma RecordedJob(s: Store, id: nat, j: Job)
    requires RowsOk(s) && Journal.Pending(s.rows, id) && JobOk(s, j)
    ensures JobOk(Apply(s, Record(id)), j)
  {
    hide Within;
    if j.w.start == s.windows[Hourly].start { OutsideWindow(s.all, id, s.rows[id].created, j.w.start, j.w.end); }
  }

  lemma RecordKept(s: Store, id: nat)
    requires Journal.Pending(s.rows, id)
    requires Inv(s)
    ensures Inv(Apply(s, Record(id)))
  {
    hide WindowOk, JobOk, Within;
    var s' := Apply(s, Record(id));
    RecordedWindow(s, id, Hourly);
    RecordedWindow(s, id, ChatCount);
    forall j | j in s.jobs ensures JobOk(s', j) { RecordedJob(s, id, j); }
  }

  lemma DiscardKept(s: Store, id: nat)
    requires Journal.Pending(s.rows, id)
    requires Inv(s)
    ensures Inv(s.(rows := s.rows - {id}))
  {
    hide WindowOk, JobOk;
    AlikeKept(s, s.(rows := s.rows - {id}));
  }

  lemma CleanupKept(s: Store)
    requires Inv(s)
    ensures Inv(Cleanup(s))
  {
    hide WindowOk, JobOk;
    AlikeKept(s, Cleanup(s));
  }

  lemma TickKept(s: Store, to: nat)
    requires s.now < to
    requires Inv(s)
    ensures Inv(s.(now := to))
  {
    hide WindowOk, JobOk;
    AlikeKept(s, s.(now := to));
  }

  lemma EventKept(s: Store, ev: Event)
    requires Inv(s)
    ensures Inv(Apply(s, ev))
  {
    hide Inv, Journal.Pending, Cleanup, CronFrom, Ensure, Finish;
    match ev
    case Tick(to) => if to > s.now { TickKept(s, to); }
    case Ensured => EnsureKept(s, Hourly); EnsureKept(Ensure(s, Hourly), ChatCount);
    case Inserted(id, chat, auth, encryption) =>
      if !(id in s.rows || id in s.all || Hourly !in s.windows || ChatCount !in s.windows) {
        InsertedKept(s, id, Journal.Row(chat, auth, encryption, s.now, false));
      }
    case Record(id) => if Journal.Pending(s.rows, id) { RecordKept(s, id); }
    case Discard(id) => if Journal.Pending(s.rows, id) { DiscardKept(s, id); }
    case Prepared(gaps) => PrepareKept(s, gaps);
    case Finished(j, ok) => FinishKept(s, j, ok);
    case CronRuns(at) => if Reconciled(s.rows) { CronKept(s, at, 0); }
    case CleansUp => CleanupKept(s);
  }

  lemma {:induction false} RunKept(s: Store, evs: seq<Event>)
    requires Inv(s)
    ensures Inv(Run(s, evs))
    decreases |evs|
  {
    hide Apply, Inv;
    if evs != [] {
      EventKept(s, evs[0]);
      RunKept(Apply(s, evs[0]), evs[1..]);
    }
  }

  lemma InitHolds(s: Store)
    requires Init(s)
    ensures Inv(s)
  {
    hide JobOk;
  }

  // ---- What a reader of the reports can rely on ----

  function Total(done: seq<Done>): nat { if done == [] then 0 else done[0].count + Total(done[1..]) }

  lemma SplitWithin(all: map<nat, nat>, a: nat, b: nat, c: nat)
    requires a <= b <= c
    ensures |Within(all, a, c)| == |Within(all, a, b)| + |Within(all, b, c)|
  {
    var x, y := Within(all, a, b), Within(all, b, c);
    assert Within(all, a, c) == x + y && x !! y;
  }

  lemma {:induction false} ChainTotal(done: seq<Done>, all: map<nat, nat>, from: nat, to: nat)
    requires Chain(done, from, to) && Exact(done, all)
    ensures from <= to && Total(done) == |Within(all, from, to)|
    decreases |done|
  {
    hide Within;
    if done == [] {
      EmptyWithin(all, from);
    } else {
      assert done[0] in done;
      ChainTotal(done[1..], all, done[0].end, to);
      SplitWithin(all, from, done[0].end, to);
    }
  }

  lemma EmptyWithin(all: map<nat, nat>, a: nat)
    ensures Within(all, a, a) == {}
  {
  }

  /** In every run the completed windows of a report are consecutive half-open
      intervals from its beginning to its current window, whatever stale or repeated
      completions came in; each counts exactly the creations ever recorded in it;
      and together they count every creation before the current window once. */
  lemma EachCreationCountedOnce(s: Store, evs: seq<Event>, r: Report)
    requires r in Run(s, evs).windows
    requires Init(s)
    ensures var t := Run(s, evs);
      && r in t.since
      && Chain(DoneOf(t, r), t.since[r], t.windows[r].start)
      && Exact(DoneOf(t, r), t.all)
      && Total(DoneOf(t, r)) == |set id | id in t.all && t.all[id] < t.windows[r].start|
  {
    hide DoneOf, Init, Run, Chain, Exact;
    InitHolds(s);
    RunKept(s, evs);
    var t := Run(s, evs);
    assert WindowOk(t, r) by { assert r == Hourly || r == ChatCount; }
    ChainTotal(DoneOf(t, r), t.all, t.since[r], t.windows[r].start);
    assert Within(t.all, t.since[r], t.windows[r].start) == set id | id in t.all && t.all[id] < t.windows[r].start;
  }

  /** Cleanup never deletes a creation that either report has still to count. */
  lemma CleanupSparesUncounted(s: Store, evs: seq<Event>, id: nat)
    requires id in Run(s, evs).all
    requires Init(s)
    ensures var t := Run(s, evs);
      Hourly in t.windows && ChatCount in t.windows
      && (t.all[id] >= t.windows[Hourly].start || t.all[id] >= t.windows[ChatCount].start ==>
            id in t.rows && t.rows[id].recorded && t.rows[id].created == t.all[id])
  {
    hide WindowOk, JobOk, Init, Run;
    InitHolds(s);
    RunKept(s, evs);
  }

  /** Completing a window that is no longer current changes nothing, and completing
      the current one queues its own mail under an id never used before. */
  lemma CompleteOnce(s: Store, evs: seq<Event>, r: Report, w: Window, count: nat, mail: bool)
    requires r in Run(s, evs).windows
    requires Init(s)
    ensures var t := Run(s, evs);
      && (w.start != t.windows[r].start ==> Complete(t, r, w, count, mail) == t)
      && (w == t.windows[r] && mail ==>
            (r, w.end) !in t.outbox && Complete(t, r, w, count, mail).outbox == t.outbox[(r, w.end) := count])
      && (w == t.windows[r] ==> Complete(Complete(t, r, w, count, mail), r, w, count, mail) == Complete(t, r, w, count, mail))
  {
    hide Within, RowsOk, JobOk, Init, Run;
    InitHolds(s);
    RunKept(s, evs);
    assert WindowOk(Run(s, evs), r) by { assert r == Hourly || r == ChatCount; }
  }
}
