/** Report windows over the creation journal: two reports count recorded creations
    in consecutive half-open intervals, and old rows are cleaned up. */
module Windows {
  import opened Journal

  datatype Report = Hourly | ChatCount

  datatype Window = Window(start: nat, end: nat, interval: nat, retry: nat)

  /** A window counted and not yet completed: the hourly report waits for other
      objects in between. */
  datatype Job = Job(w: Window, count: nat, mail: bool)

  datatype Done = Done(start: nat, end: nat, count: nat)

  /** `since`, `done` and `all` only remember: where each report began, what it
      completed, and when each creation ever recorded took place. */
  datatype Store = Store(windows: map<Report, Window>, outbox: map<(Report, nat), nat>, rows: map<nat, Row>, jobs: set<Job>, now: nat,
    since: map<Report, nat>, done: map<Report, seq<Done>>, all: map<nat, nat>)

  const HOUR := 3600000
  const RETRY := 300000

  function Interval(r: Report): nat { if r.Hourly? then HOUR else 12 * HOUR }

  function DoneOf(s: Store, r: Report): seq<Done> { if r in s.done then s.done[r] else [] }

  // ---- ReportStore ----

  function Ensure(s: Store, r: Report): Store {
    if r in s.windows then s
    else s.(windows := s.windows[r := Window(s.now, (s.now / Interval(r) + 1) * Interval(r), Interval(r), 0)],
            since := s.since[r := s.now])
  }

  predicate Due(s: Store, r: Report, until: nat) {
    r in s.windows && s.windows[r].end <= until && s.windows[r].retry <= s.now
  }

  /** A mail id is used once. */
  function Enqueue(outbox: map<(Report, nat), nat>, id: (Report, nat), count: nat): map<(Report, nat), nat> {
    if id in outbox then outbox else outbox[id := count]
  }

  /** Closes a window and opens the next, unless it was closed already. */
  function Complete(s: Store, r: Report, w: Window, count: nat, mail: bool): Store {
    if r !in s.windows || s.windows[r].start != w.start then s
    else s.(outbox := if mail then Enqueue(s.outbox, (r, w.end), count) else s.outbox,
            windows := s.windows[r := Window(w.end, w.end + w.interval, s.windows[r].interval, 0)],
            done := s.done[r := DoneOf(s, r) + [Done(w.start, w.end, count)]])
  }

  function Failed(s: Store, r: Report): Store {
    if r !in s.windows then s else s.(windows := s.windows[r := s.windows[r].(retry := s.now + RETRY)])
  }

  // ---- Reports ----

  function Recorded(rows: map<nat, Row>, a: nat, b: nat): set<nat> {
    set id | id in rows && rows[id].recorded && a <= rows[id].created < b
  }

  function Count(rows: map<nat, Row>, w: Window): nat { |Recorded(rows, w.start, w.end)| }

  predicate Reconciled(rows: map<nat, Row>) { forall id | id in rows :: rows[id].recorded }

  /** The hourly report after a recovery: count its window if it is due. `gaps` says
      whether its coverage is known to be incomplete. */
  function Prepare(s: Store, gaps: bool): Store {
    if !Reconciled(s.rows) || !Due(s, Hourly, s.now) then s
    else
      var w := s.windows[Hourly];
      s.(jobs := s.jobs + {Job(w, Count(s.rows, w), Count(s.rows, w) > 0 || gaps)})
  }

  function Finish(s: Store, j: Job, ok: bool): Store {
    if j !in s.jobs then s
    else
      var s1 := s.(jobs := s.jobs - {j});
      if ok then Complete(s1, Hourly, j.w, j.count, j.mail) else Failed(s1, Hourly)
  }

  /** The loop of the count report, up to a hundred windows at a time. */
  function CronFrom(s: Store, at: nat, i: nat): Store
    decreases 100 - i
  {
    var until := if at < s.now then at else s.now;
    if i >= 100 || !Due(s, ChatCount, until) then s
    else CronFrom(Complete(s, ChatCount, s.windows[ChatCount], Count(s.rows, s.windows[ChatCount]), true), at, i + 1)
  }

  function Cron(s: Store, at: nat): Store {
    if Reconciled(s.rows) then CronFrom(s, at, 0) else s
  }

  function Cleanup(s: Store): Store {
    if Hourly !in s.windows || ChatCount !in s.windows then s
    else
      var a, b := s.windows[Hourly].start, s.windows[ChatCount].start;
      var start := if a < b then a else b;
      s.(rows := map id | id in s.rows && !(s.rows[id].recorded && s.rows[id].created < start) :: s.rows[id])
  }

  // ---- Runs ----

  /** The journal's own steps enter as rows inserted now, recorded and discarded. */
  datatype Event =
    | Tick(to: nat)
    | Ensured
    | Inserted(id: nat, chat: nat, auth: nat, encryption: bool)
    | Record(id: nat)
    | Discard(id: nat)
    | Prepared(gaps: bool)
    | Finished(j: Job, ok: bool)
    | CronRuns(at: nat)
    | CleansUp

  function Apply(s: Store, ev: Event): Store {
    match ev
    case Tick(to) => if to > s.now then s.(now := to) else s
    case Ensured => Ensure(Ensure(s, Hourly), ChatCount)
    case Inserted(id, chat, auth, encryption) =>
      if id in s.rows || id in s.all || Hourly !in s.windows || ChatCount !in s.windows then s
      else s.(rows := s.rows[id := Row(chat, auth, encryption, s.now, false)])
    case Record(id) =>
      if Pending(s.rows, id) then s.(rows := s.rows[id := s.rows[id].(recorded := true)], all := s.all[id := s.rows[id].created]) else s
    case Discard(id) => if Pending(s.rows, id) then s.(rows := s.rows - {id}) else s
    case Prepared(gaps) => Prepare(s, gaps)
    case Finished(j, ok) => Finish(s, j, ok)
    case CronRuns(at) => Cron(s, at)
    case CleansUp => Cleanup(s)
  }

  function Run(s: Store, evs: seq<Event>): Store
    decreases |evs|
  {
    if evs == [] then s else Run(Apply(s, evs[0]), evs[1..])
  }

  predicate Init(s: Store) {
    s.windows == map[] && s.outbox == map[] && s.rows == map[] && s.jobs == {} && s.since == map[] && s.done == map[] && s.all == map[]
  }
}
