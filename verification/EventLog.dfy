/** One channel's log in the Go store: bounded reads and the compare-and-swap append. */
module EventLog {
  /** A stored event: the length of its ciphertext and the rest of it. */
  datatype Event = Event(size: nat, body: nat)

  type Log = seq<Event>

  datatype Page = Page(events: seq<Event>, last: int, more: bool)

  const MAX_BLOB := 524288
  const MAX_EVENTS := 10000
  const MAX_CHANNEL := 1048576
  const PAGE_BYTES := 1048576
  const PAGE_EVENTS := 500

  function Head(log: Log): int { |log| - 1 }

  /** How many more rows the read loop takes, after `count` rows of `bytes` bytes. */
  function Taken(log: Log, from: nat, count: nat, bytes: nat): (n: nat)
    requires from <= |log|
    ensures from + n <= |log| && (count <= PAGE_EVENTS ==> count + n <= PAGE_EVENTS)
    decreases |log| - from
  {
    if from == |log| || count >= PAGE_EVENTS || (count > 0 && bytes + log[from].size > PAGE_BYTES) then 0
    else 1 + Taken(log, from + 1, count + 1, bytes + log[from].size)
  }

  function Events(log: Log, since: int): (p: Page)
    requires since >= -1
    ensures p.last >= -1
  {
    if Head(log) <= since then Page([], Head(log), false)
    else
      var n := Taken(log, since + 1, 0, 0);
      var events := log[since + 1..since + 1 + n];
      if since + n < Head(log) then Page(events, since + n, true) else Page(events, Head(log), false)
  }

  function Bytes(events: seq<Event>): nat { if events == [] then 0 else events[0].size + Bytes(events[1..]) }

  datatype Appended = Committed(log: Log) | Conflict(page: Page) | TooBig | Full

  function Append(log: Log, last: int, e: Event): Appended
    requires last >= -1
  {
    if e.size > MAX_BLOB then TooBig
    else if Head(log) != last then Conflict(Events(log, last))
    else if Head(log) + 1 >= MAX_EVENTS || Bytes(log) + e.size > MAX_CHANNEL then Full
    else Committed(log + [e])
  }

  predicate WithinLimits(log: Log) {
    |log| <= MAX_EVENTS && Bytes(log) <= MAX_CHANNEL && forall e | e in log :: e.size <= MAX_BLOB
  }

  // ---- What a page promises ----

  lemma {:induction false} BytesEnd(a: seq<Event>, e: Event)
    ensures Bytes(a + [e]) == Bytes(a) + e.size
    decreases |a|
  {
    if a == [] {
      assert a + [e] == [e];
    } else {
      assert (a + [e])[1..] == a[1..] + [e];
      BytesEnd(a[1..], e);
    }
  }

  lemma {:induction false} TakenFits(log: Log, from: nat, count: nat, bytes: nat)
    requires from <= |log|
    ensures var n := Taken(log, from, count, bytes);
      n > 0 && count > 0 ==> bytes + Bytes(log[from..from + n]) <= PAGE_BYTES
    ensures var n := Taken(log, from, count, bytes);
      n > 1 ==> bytes + Bytes(log[from..from + n]) <= PAGE_BYTES
    decreases |log| - from
  {
    var n := Taken(log, from, count, bytes);
    if n > 0 {
      assert log[from..from + n][1..] == log[from + 1..from + 1 + (n - 1)];
      TakenFits(log, from + 1, count + 1, bytes + log[from].size);
      if n == 1 { assert log[from + 1..from + 1] == []; }
    }
  }

  /** A page is the stretch of the log right after the cursor through `last`, never
      empty while there is more, within both bounds; `last` passes no event that was
      not returned, and `more` says whether there are later ones. */
  lemma PageIsStretch(log: Log, since: int)
    requires since >= -1
    ensures var p := Events(log, since);
      && p.last <= Head(log) && p.more == (p.last < Head(log) && since < Head(log))
      && (since <= Head(log) ==> since <= p.last && p.events == log[since + 1..p.last + 1])
      && (since >= Head(log) ==> p.events == [] && p.last == Head(log))
      && (since < Head(log) ==> p.events != [] && since < p.last)
      && |p.events| <= PAGE_EVENTS && (|p.events| > 1 ==> Bytes(p.events) <= PAGE_BYTES)
  {
    if since < Head(log) { TakenFits(log, since + 1, 0, 0); }
  }

  /** The read loop: rows in order, at most 500 of them, until the bytes are used up. */
  method ReadEvents(log: Log, since: int) returns (p: Page)
    requires since >= -1
    ensures p == Events(log, since)
  {
    var top := |log| - 1;
    p := Page([], top, false);
    if top <= since { return; }
    var limit := if since + 1 + PAGE_EVENTS <= top + 1 then since + 1 + PAGE_EVENTS else top + 1;
    var events: seq<Event> := [];
    var bytes: nat, row: nat := 0, since + 1;
    while row < limit
      invariant since + 1 <= row <= limit && events == log[since + 1..row]
      invariant |events| + Taken(log, row, |events|, bytes) == Taken(log, since + 1, 0, 0)
    {
      if |events| > 0 && bytes + log[row].size > PAGE_BYTES { break; }
      bytes := bytes + log[row].size;
      events := events + [log[row]];
      row := row + 1;
    }
    p := p.(events := events);
    var n := |events|;
    if n > 0 && since + n < top { p := p.(last := since + n, more := true); }
  }

  /** Reading again from where a page ended, until there is no more, reaches the head
      and skips nothing. */
  method ReadAll(log: Log, since: int) returns (events: seq<Event>, last: int)
    requires -1 <= since <= Head(log)
    ensures events == log[since + 1..] && last == Head(log)
  {
    events, last := [], since;
    while true
      invariant since <= last <= Head(log) && events == log[since + 1..last + 1]
      decreases Head(log) - last
    {
      var p := ReadEvents(log, last);
      PageIsStretch(log, last);
      events := events + p.events;
      last := p.last;
      if !p.more { break; }
    }
  }

  /** What repeated reads return and where they end, the log growing in between. */
  datatype Progress = Progress(events: seq<Event>, last: int)

  function Reads(logs: seq<Log>, since: int): Progress
    requires since >= -1
    decreases |logs|
  {
    if logs == [] then Progress([], since)
    else
      var p := Events(logs[0], since);
      var next := if p.events == [] then since else p.last;
      var rest := Reads(logs[1..], next);
      Progress(p.events + rest.events, rest.last)
  }

  /** Successive states of a log on its way to its final one. */
  ghost predicate Growing(logs: seq<Log>, final: Log) {
    logs != [] ==> logs[0] <= final && (|logs| > 1 ==> logs[0] <= logs[1]) && Growing(logs[1..], final)
  }

  /** A cursor that follows a growing log through any number of bounded reads has
      been handed exactly the events up to where it stands. */
  lemma {:induction false} ReadsSkipNothing(logs: seq<Log>, final: Log, since: int)
    requires -1 <= since <= Head(final) && Growing(logs, final) && (logs != [] ==> since <= Head(logs[0]))
    ensures var r := Reads(logs, since);
      since <= r.last <= Head(final) && r.events == final[since + 1..r.last + 1]
    decreases |logs|
  {
    hide Events, Bytes;
    if logs != [] {
      var p := Events(logs[0], since);
      PageIsStretch(logs[0], since);
      ReadsSkipNothing(logs[1..], final, p.last);
    }
  }

  // ---- Appending ----

  /** Of all appends prepared at one cursor at most one commits: once one has, every
      other is refused, on that log and on all that follow from it. */
  lemma AppendOncePerCursor(log: Log, last: int, a: Event, later: Log, b: Event)
    requires last >= -1 && Append(log, last, a).Committed? && Append(log, last, a).log <= later
    ensures later[last + 1] == a
    ensures !Append(later, last, b).Committed? && (b.size <= MAX_BLOB ==> Append(later, last, b).Conflict?)
    ensures b.size <= MAX_BLOB ==> Append(later, last, b).page.events != [] && Append(later, last, b).page.events[0] == a
  {
    PageIsStretch(later, last);
  }

  /** An append keeps every limit, and is refused for room only when one would break. */
  lemma AppendKeepsLimits(log: Log, last: int, e: Event)
    requires last >= -1 && WithinLimits(log)
    ensures Append(log, last, e).Committed? ==> WithinLimits(Append(log, last, e).log)
    ensures Append(log, last, e).Committed? <==> Head(log) == last && WithinLimits(log + [e])
  {
    BytesEnd(log, e);
    assert e in log + [e];
    assert forall x | x in log :: x in log + [e];
  }
}
