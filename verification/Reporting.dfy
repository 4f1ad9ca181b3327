/** The creation gate and the reports it keeps, run together: they share the journal
    rows and the clock. What the reports add up is compared with the chats that came
    into being. */
module Reporting {
  import Journal
  import JournalProofs
  import JournalResults
  import Windows
  import WindowsProofs

  /** `noted` remembers when each creation was noted in the journal. */
  datatype Office = Office(gate: Journal.World, store: Windows.Store, noted: map<nat, nat>)

  datatype Event =
    | Gate(g: Journal.Event)         // the gate, the chats and the requests between them
    | Report(r: Windows.Event)       // the clock, the windows, counting and mail

  /** What the gate is about to note about the creation it waits for. */
  function Heard(w: Journal.World): Windows.Event {
    if w.op.Idle? || w.op.wait.call !in w.answers || w.op.wait.creation.None? then Windows.Tick(0)
    else
      var status := w.answers[w.op.wait.call];
      if status == Journal.CREATED then Windows.Record(w.op.wait.creation.value)
      else if status == Journal.EXISTS || status == Journal.MODE_CHANGED then Windows.Discard(w.op.wait.creation.value)
      else Windows.Tick(0)
  }

  predicate OwnOfReports(r: Windows.Event) {
    r.Tick? || r.Ensured? || r.Prepared? || r.Finished? || r.CronRuns?
  }

  /** The gate's step: a creation is noted with the time of the shared clock, and a
      cleanup deletes what lies before both windows. */
  ghost function GateEvent(p: Office, g: Journal.Event): Journal.Event {
    match g
    case CreateChat(chat, auth, encryption, _, enabled) => Journal.CreateChat(chat, auth, encryption, p.store.now, enabled)
    case CleanedUp(_) =>
      Journal.CleanedUp(
        if Windows.Hourly in p.store.windows && Windows.ChatCount in p.store.windows then
          var a, b := p.store.windows[Windows.Hourly].start, p.store.windows[Windows.ChatCount].start;
          if a < b then a else b
        else 0)
    case _ => g
  }

  ghost function StoreAfter(p: Office, g: Journal.Event): Windows.Store {
    match g
    case CreateChat(chat, auth, encryption, _, enabled) =>
      var s := if enabled then Windows.Apply(p.store, Windows.Ensured) else p.store;
      if Journal.Apply(p.gate, GateEvent(p, g)).rows == p.gate.rows then s
      else Windows.Apply(s, Windows.Inserted(p.gate.nextId, chat, auth, encryption))
    case GateHears => Windows.Apply(p.store, Heard(p.gate))
    case CleanedUp(_) => Windows.Apply(p.store, Windows.CleansUp)
    case _ => p.store
  }

  ghost function Apply(p: Office, ev: Event): Office {
    match ev
    case Gate(g) =>
      var gate := Journal.Apply(p.gate, GateEvent(p, g));
      Office(gate, StoreAfter(p, g), if p.gate.nextId in gate.rows then p.noted[p.gate.nextId := p.store.now] else p.noted)
    case Report(r) => if OwnOfReports(r) then p.(store := Windows.Apply(p.store, r)) else p
  }

  ghost function Run(p: Office, evs: seq<Event>): Office
    decreases |evs|
  {
    if evs == [] then p else Run(Apply(p, evs[0]), evs[1..])
  }

  /** What the gate and the chats did in a run. */
  ghost function GateRun(p: Office, evs: seq<Event>): seq<Journal.Event>
    decreases |evs|
  {
    if evs == [] then []
    else (if evs[0].Gate? then [GateEvent(p, evs[0].g)] else []) + GateRun(Apply(p, evs[0]), evs[1..])
  }

  ghost predicate Init(p: Office) {
    Journal.Init(p.gate) && Windows.Init(p.store) && p.noted == map[]
  }

  // ---- One set of rows ----

  ghost predicate Linked(p: Office) {
    && p.gate.rows == p.store.rows
    && p.store.all.Keys == p.gate.recorded
    && p.noted.Keys == p.gate.home.Keys
    && (forall id | id in p.store.rows :: id in p.noted && p.store.rows[id].created == p.noted[id])
    && (forall id | id in p.store.all :: id in p.noted && p.store.all[id] == p.noted[id])
  }

  ghost predicate Inv(p: Office) {
    JournalProofs.Inv(p.gate) && WindowsProofs.Inv(p.store) && Linked(p)
  }

  lemma ReportRows(s: Windows.Store, r: Windows.Event)
    requires OwnOfReports(r)
    ensures Windows.Apply(s, r).rows == s.rows && Windows.Apply(s, r).all == s.all
  {
    hide Windows.Complete, Windows.Ensure, Windows.CronFrom, Windows.Count, Windows.Due, Windows.Reconciled;
    match r {
      case Ensured => EnsuredRows(s);
      case CronRuns(at) => CronRows(s, at, 0);
      case Finished(j, _) =>
        if j in s.jobs { CompleteRows(s.(jobs := s.jobs - {j}), Windows.Hourly, j.w, j.count, j.mail); }
      case _ =>
    }
  }

  lemma CompleteRows(s: Windows.Store, r: Windows.Report, w: Windows.Window, count: nat, mail: bool)
    ensures Windows.Complete(s, r, w, count, mail).rows == s.rows && Windows.Complete(s, r, w, count, mail).all == s.all
  {
  }

  lemma {:induction false} CronRows(s: Windows.Store, at: nat, i: nat)
    ensures Windows.CronFrom(s, at, i).rows == s.rows && Windows.CronFrom(s, at, i).all == s.all
    decreases 100 - i
  {
    hide Windows.Complete, Windows.Count;
    var until := if at < s.now then at else s.now;
    if i < 100 && Windows.Due(s, Windows.ChatCount, until) {
      var w := s.windows[Windows.ChatCount];
      CompleteRows(s, Windows.ChatCount, w, Windows.Count(s.rows, w), true);
      CronRows(Windows.Complete(s, Windows.ChatCount, w, Windows.Count(s.rows, w), true), at, i + 1);
    }
  }

  lemma ReportLinked(p: Office, r: Windows.Event)
    requires OwnOfReports(r)
    requires Inv(p)
    ensures Inv(Apply(p, Report(r)))
  {
    hide JournalProofs.Inv, WindowsProofs.Inv, OwnOfReports, Windows.Apply, Journal.Apply, GateEvent;
    ReportRows(p.store, r);
    WindowsProofs.EventKept(p.store, r);
  }

  /** Every id in the rows or recorded belongs to a creation noted before. */
  lemma IdsKnown(w: Journal.World)
    requires JournalProofs.Inv(w)
    ensures forall id | id in w.home :: id < w.nextId
    ensures forall id | id in w.rows :: id in w.home
    ensures forall id | id in w.recorded :: id in w.home
  {
  }

  lemma EnsuredRows(s: Windows.Store)
    ensures var s1 := Windows.Apply(s, Windows.Ensured);
      s1.rows == s.rows && s1.all == s.all && s1.now == s.now && Windows.Hourly in s1.windows && Windows.ChatCount in s1.windows
  {
    hide Windows.Ensure;
    EnsureRows(s, Windows.Hourly);
    EnsureRows(Windows.Ensure(s, Windows.Hourly), Windows.ChatCount);
  }

  lemma EnsureRows(s: Windows.Store, r: Windows.Report)
    ensures var s1 := Windows.Ensure(s, r);
      s1.rows == s.rows && s1.all == s.all && s1.now == s.now && r in s1.windows && s.windows.Keys <= s1.windows.Keys
  {
  }

  /** What `create` does to the rows. */
  lemma CreateRows(w: Journal.World, chat: nat, auth: nat, encryption: bool, now: nat, enabled: bool)
    requires JournalProofs.Inv(w)
    ensures var w' := Journal.Create(w, chat, auth, encryption, now, enabled);
      && w'.recorded == w.recorded
      && ((w'.rows == w.rows && w'.home == w.home && w.nextId !in w'.rows)
          || (enabled && w'.rows == w.rows[w.nextId := Journal.Row(chat, auth, encryption, now, false)] && w'.home == w.home[w.nextId := chat]
              && w.nextId in w'.rows && w'.rows != w.rows))
  {
    hide JournalProofs.Inv, Journal.FindPending, Journal.Send;
    IdsKnown(w);
    hide JournalProofs.Inv;
  }

  lemma InsertedRows(s: Windows.Store, id: nat, chat: nat, auth: nat, encryption: bool)
    requires id !in s.rows && id !in s.all && Windows.Hourly in s.windows && Windows.ChatCount in s.windows
    ensures var s1 := Windows.Apply(s, Windows.Inserted(id, chat, auth, encryption));
      s1.rows == s.rows[id := Journal.Row(chat, auth, encryption, s.now, false)] && s1.all == s.all
  {
  }

  lemma CreateLinked(p: Office, g: Journal.Event)
    requires g.CreateChat?
    requires Inv(p)
    ensures Inv(Apply(p, Gate(g)))
  {
    hide JournalProofs.Inv, WindowsProofs.Inv, Journal.Create, Windows.Apply;
    IdsKnown(p.gate);
    JournalProofs.EventKept(p.gate, GateEvent(p, g));
    CreateRows(p.gate, g.chat, g.auth, g.encryption, p.store.now, g.enabled);
    var s := Windows.Apply(p.store, Windows.Ensured);
    EnsuredRows(p.store);
    WindowsProofs.EventKept(p.store, Windows.Ensured);
    InsertedRows(s, p.gate.nextId, g.chat, g.auth, g.encryption);
    WindowsProofs.EventKept(s, Windows.Inserted(p.gate.nextId, g.chat, g.auth, g.encryption));
  }

  lemma AnsweredRows(w: Journal.World)
    requires JournalProofs.Inv(w)
    ensures var w' := Journal.Answered(w);
      var heard := Heard(w);
      && w'.home == w.home && w'.rows.Keys <= w.rows.Keys
      && (heard.Record? ==> Journal.Pending(w.rows, heard.id))
      && (heard.Record? ==>
            w'.rows == w.rows[heard.id := w.rows[heard.id].(recorded := true)] && w'.recorded == w.recorded + {heard.id})
      && (heard.Discard? ==> Journal.Pending(w.rows, heard.id) && w'.rows == w.rows - {heard.id} && w'.recorded == w.recorded)
      && (heard.Record? || heard.Discard? || (heard.Tick? && heard.to == 0 && w'.rows == w.rows && w'.recorded == w.recorded))
  {
    hide JournalProofs.Homes, JournalProofs.ChatsOk, JournalProofs.BornOnce, JournalProofs.RowsOk, JournalProofs.CallsOk, JournalProofs.Born;
  }

  lemma NotedRows(s: Windows.Store, r: Windows.Event)
    ensures r.Record? && Journal.Pending(s.rows, r.id) ==>
      && Windows.Apply(s, r).rows == s.rows[r.id := s.rows[r.id].(recorded := true)]
      && Windows.Apply(s, r).all == s.all[r.id := s.rows[r.id].created]
    ensures r.Discard? && Journal.Pending(s.rows, r.id) ==>
      Windows.Apply(s, r).rows == s.rows - {r.id} && Windows.Apply(s, r).all == s.all
    ensures r == Windows.Tick(0) ==> Windows.Apply(s, r) == s
  {
    hide Windows.Complete, Windows.Ensure, Windows.CronFrom, Windows.Count, Windows.Due, Windows.Reconciled;
  }

  lemma HeardLinked(p: Office, g: Journal.Event)
    requires g.GateHears?
    requires Inv(p)
    ensures Inv(Apply(p, Gate(g)))
  {
    hide JournalProofs.Inv, WindowsProofs.Inv, Journal.Answered, Heard, Windows.Apply;
    IdsKnown(p.gate);
    JournalProofs.EventKept(p.gate, g);
    AnsweredRows(p.gate);
    NotedRows(p.store, Heard(p.gate));
    WindowsProofs.EventKept(p.store, Heard(p.gate));
  }

  lemma CleanupLinked(p: Office, g: Journal.Event)
    requires g.CleanedUp?
    requires Inv(p)
    ensures Inv(Apply(p, Gate(g)))
  {
    hide JournalProofs.Inv, WindowsProofs.Inv;
    IdsKnown(p.gate);
    JournalProofs.EventKept(p.gate, GateEvent(p, g));
    WindowsProofs.EventKept(p.store, Windows.CleansUp);
  }

  lemma OtherRows(w: Journal.World, g: Journal.Event)
    requires !g.CreateChat? && !g.GateHears? && !g.CleanedUp?
    ensures var w' := Journal.Apply(w, g); w'.rows == w.rows && w'.home == w.home && w'.recorded == w.recorded
  {
    hide Journal.Answered, Journal.ChatAt;
  }

  lemma EventKept(p: Office, ev: Event)
    requires Inv(p)
    ensures Inv(Apply(p, ev))
  {
    hide JournalProofs.Inv, WindowsProofs.Inv, Journal.Apply, Windows.Apply, Linked;
    if ev.Report? {
      if OwnOfReports(ev.r) { ReportLinked(p, ev.r); }
    } else if ev.g.CreateChat? {
      CreateLinked(p, ev.g);
    } else if ev.g.GateHears? {
      HeardLinked(p, ev.g);
    } else if ev.g.CleanedUp? {
      CleanupLinked(p, ev.g);
    } else {
      OtherLinked(p, ev.g);
    }
  }

  lemma OtherLinked(p: Office, g: Journal.Event)
    requires !g.CreateChat? && !g.GateHears? && !g.CleanedUp?
    requires Inv(p)
    ensures Inv(Apply(p, Gate(g)))
  {
    hide JournalProofs.Inv, WindowsProofs.Inv, Journal.Apply;
    IdsKnown(p.gate);
    OtherRows(p.gate, g);
    JournalProofs.EventKept(p.gate, g);
  }

  lemma {:induction false} RunKept(p: Office, evs: seq<Event>)
    requires Inv(p)
    ensures Inv(Run(p, evs))
    ensures Run(p, evs).gate == Journal.Run(p.gate, GateRun(p, evs))
    decreases |evs|
  {
    hide Inv, Journal.Apply, StoreAfter, GateEvent;
    if evs != [] {
      EventKept(p, evs[0]);
      RunKept(Apply(p, evs[0]), evs[1..]);
      if evs[0].Gate? {
        var g, rest := GateEvent(p, evs[0].g), GateRun(Apply(p, evs[0]), evs[1..]);
        assert ([g] + rest)[1..] == rest;
      } else {
        assert [] + GateRun(Apply(p, evs[0]), evs[1..]) == GateRun(Apply(p, evs[0]), evs[1..]);
      }
    }
  }

  lemma InitHolds(p: Office)
    requires Init(p)
    ensures Inv(p)
  {
    hide JournalProofs.Inv;
    JournalProofs.InitHolds(p.gate);
    WindowsProofs.InitHolds(p.store);
  }

  // ---- What the reports add up ----

  /** The journalled creations noted before a time whose chat has come into being. */
  function BornBefore(p: Office, time: nat): set<nat> {
    set id | id in p.noted && p.noted[id] < time && (exists b :: b in p.gate.born && b.id == id)
  }

  function RecordedBefore(p: Office, time: nat): set<nat> {
    set id | id in p.store.all && p.store.all[id] < time
  }

  lemma BornIs(born: seq<Journal.Birth>, id: nat)
    ensures JournalProofs.Born(born, id) <==> exists b :: b in born && b.id == id
  {
    if JournalProofs.Born(born, id) {
      var chat :| JournalProofs.BornAt(born, chat, id);
      assert Journal.Birth(chat, id) in born;
    }
    if b :| b in born && b.id == id { JournalProofs.BornIs(born, b); }
  }

  /** The completed windows of a report count what was recorded before the current one. */
  lemma TotalIs(p: Office, r: Windows.Report)
    requires r in p.store.windows
    requires Inv(p)
    ensures WindowsProofs.Total(Windows.DoneOf(p.store, r)) == |RecordedBefore(p, p.store.windows[r].start)|
  {
    hide JournalProofs.Inv, Windows.DoneOf;
    var s := p.store;
    assert WindowsProofs.WindowOk(s, r) by { assert r == Windows.Hourly || r == Windows.ChatCount; }
    WindowsProofs.ChainTotal(Windows.DoneOf(s, r), s.all, s.since[r], s.windows[r].start);
    assert WindowsProofs.Within(s.all, s.since[r], s.windows[r].start) == RecordedBefore(p, s.windows[r].start);
  }

  /** What is recorded came into being. */
  lemma RecordedAreBorn(p: Office, time: nat)
    requires Inv(p)
    ensures RecordedBefore(p, time) <= BornBefore(p, time)
  {
    hide JournalProofs.Born, JournalProofs.Homes, JournalProofs.ChatsOk, JournalProofs.BornOnce, JournalProofs.CallsOk,
         JournalProofs.OpOk, WindowsProofs.Inv;
    forall id | id in RecordedBefore(p, time) ensures id in BornBefore(p, time) {
      BornIs(p.gate.born, id);
    }
  }

  lemma SameSize(a: set<nat>, b: set<nat>)
    requires a <= b
    ensures |a| == |b| <==> a == b
  {
    assert b == a + (b - a);
    assert |b| == |a| + |b - a|;
  }

  /** In every run of gate, chats and reports that leaves nothing pending, a report's
      completed windows add up to the number of journalled chats that came into being
      before its current window, if and only if no such chat was created by a request
      the gate had stopped waiting for (`JournalResults.Escape`). */
  lemma ReportsCountBirths(p: Office, evs: seq<Event>, r: Windows.Report)
    requires r in Run(p, evs).store.windows && Windows.Reconciled(Run(p, evs).store.rows)
    requires Init(p)
    ensures var q := Run(p, evs);
      var start := q.store.windows[r].start;
      WindowsProofs.Total(Windows.DoneOf(q.store, r)) == |BornBefore(q, start)| <==>
        forall id | id in q.noted && q.noted[id] < start :: !JournalResults.EscapeIn(p.gate, GateRun(p, evs), id)
  {
    hide Run, JournalProofs.Inv, WindowsProofs.Inv, JournalResults.EscapeIn, BornBefore, RecordedBefore,
         JournalProofs.Born, Journal.Init;
    InitHolds(p);
    RunKept(p, evs);
    var q := Run(p, evs);
    var start := q.store.windows[r].start;
    TotalIs(q, r);
    RecordedAreBorn(q, start);
    SameSize(RecordedBefore(q, start), BornBefore(q, start));
    forall id | id in q.noted && q.noted[id] < start
      ensures (id in RecordedBefore(q, start) <==> id in BornBefore(q, start)) <==>
              !JournalResults.EscapeIn(p.gate, GateRun(p, evs), id)
    {
      JournalResults.JournalIsExact(p.gate, GateRun(p, evs), id);
      CountedWhenExact(q, id, start);
    }
    BeforeAreNoted(q, start);
  }

  lemma CountedWhenExact(p: Office, id: nat, time: nat)
    requires id in p.noted && p.noted[id] < time && !Journal.Pending(p.gate.rows, id)
    requires Inv(p)
    ensures (id in RecordedBefore(p, time) <==> id in BornBefore(p, time)) <==> JournalResults.ExactAbout(p.gate, id)
  {
    hide JournalProofs.Homes, JournalProofs.ChatsOk, JournalProofs.BornOnce, JournalProofs.CallsOk, JournalProofs.OpOk,
         JournalProofs.Born, WindowsProofs.Inv;
    BornIs(p.gate.born, id);
  }

  lemma BeforeAreNoted(p: Office, time: nat)
    requires Inv(p)
    ensures forall id | id in RecordedBefore(p, time) || id in BornBefore(p, time) :: id in p.noted && p.noted[id] < time
  {
    hide JournalProofs.Inv, WindowsProofs.Inv;
  }

  /** So if no request outlives the gate's wait for it, the reports count every
      journalled chat exactly once. */
  lemma PromptReportsCountBirths(p: Office, evs: seq<Event>, r: Windows.Report)
    requires JournalResults.Prompt(GateRun(p, evs))
    requires r in Run(p, evs).store.windows && Windows.Reconciled(Run(p, evs).store.rows)
    requires Init(p)
    ensures var q := Run(p, evs);
      WindowsProofs.Total(Windows.DoneOf(q.store, r)) == |BornBefore(q, q.store.windows[r].start)|
  {
    hide Run, JournalProofs.Inv, JournalResults.EscapeIn, BornBefore, JournalResults.Prompt, JournalResults.OneOut,
         Journal.Init, GateRun, Windows.DoneOf, Windows.Reconciled, WindowsProofs.Total;
    JournalProofs.InitHolds(p.gate);
    assert JournalResults.OneOut(p.gate) by { NothingOut(p.gate); }
    forall id | id in Run(p, evs).noted ensures !JournalResults.EscapeIn(p.gate, GateRun(p, evs), id) {
      JournalResults.PromptNeverEscapes(p.gate, GateRun(p, evs), id);
    }
    ReportsCountBirths(p, evs, r);
  }

  lemma NothingOut(w: Journal.World)
    requires Journal.Init(w)
    ensures JournalResults.OneOut(w)
  {
  }
}
