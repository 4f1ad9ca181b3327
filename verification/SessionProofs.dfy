/** All events one session gets committed carry one name; each call of `append`
    commits at most one; and what was presented is a prefix of the log. */
module SessionProofs {
  import opened Options
  import opened Session
  import opened SessionProtocol

  // ---- The delivered prefix ----

  /** A stretch of the log that starts at most one past `last`. */
  ghost predicate Stretch(log: seq<Entry>, last: int, p: seq<Envelope>) {
    && (p != [] ==> p[0].pos <= last + 1)
    && (forall i | 0 <= i < |p| :: p[i].pos == p[0].pos + i && p[i].pos < |log| && p[i].token == log[p[i].pos].token)
  }

  ghost predicate DeliveryOk(log: seq<Entry>, last: int, d: Delivery) {
    match d.opening
    case None => Stretch(log, last, d.rest)
    case Some(e) =>
      e.pos == last + 1 && e.pos < |log| && e.token == log[e.pos].token && Stretch(log, last + 1, d.rest)
  }

  ghost predicate Flow(c: Client, log: seq<Entry>) {
    && -1 <= c.last < |log|
    && (forall i | 0 <= i < |c.queue| :: Stretch(log, c.last, c.queue[i]))
    && (c.current.Some? ==> DeliveryOk(log, c.last, c.current.value))
    && c.presented == Page(log, 0, c.last + 1)
  }

  // ---- Requests and outcomes ----

  /** The request an attempt records. */
  ghost predicate SentAs(sent: set<Post>, a: Attempt) {
    exists p :: p in sent && p.token == a.token && p.prev + 1 == a.pos && p.from == a.from
  }

  ghost predicate Own(log: seq<Entry>, k: int) { 0 <= k < |log| && log[k].call.Some? }

  ghost predicate OwnAs(log: seq<Entry>, k: int, name: string) { Own(log, k) && log[k].name == name }

  /** What the server committed is what was sent, once each. */
  ghost predicate Ledger(log: seq<Entry>, sent: set<Post>, wire: set<Post>, outcome: map<nat, Outcome>, nextToken: nat, nextCall: nat) {
    && (forall p | p in sent :: p.token < nextToken && -1 <= p.prev < |log| && p.call < nextCall)
    && (forall p, q | p in sent && q in sent && p.token == q.token :: p == q)
    && wire <= sent
    && (forall p | p in wire :: p.token !in outcome)
    && (forall t | t in outcome :: t < nextToken)
    && (forall k | 0 <= k < |log| :: log[k].token < nextToken)
    && (forall k | Own(log, k) ::
          && Post(k - 1, log[k].token, log[k].name, log[k].call.value) in sent
          && log[k].token in outcome && outcome[log[k].token] == Committed)
    && (forall p | p in sent && p.token in outcome && outcome[p.token] == Committed ::
          p.prev + 1 < |log| && log[p.prev + 1] == Entry(p.token, p.from, Some(p.call)))
    && (forall k, p | 0 <= k < |log| && p in sent && log[k].token == p.token ::
          p.token in outcome && outcome[p.token] == Committed)
  }

  ghost predicate Knows(sent: set<Post>, attempts: seq<Attempt>, calls: map<nat, Call>, last: int, nextCall: nat) {
    && (forall a | a in attempts :: SentAs(sent, a))
    && (forall id | id in calls :: id < nextCall && (calls[id].Posting? ==> SentAs(sent, calls[id].attempt) && calls[id].attempt.pos <= last + 1))
    && (forall id | id in calls && calls[id].Sealing? :: -1 <= calls[id].prev <= last)
  }

  // ---- Names ----

  /** Every own event up to a position carries this name. */
  ghost predicate NamedUpTo(log: seq<Entry>, k: int, name: string) {
    forall i | Own(log, i) && i <= k :: log[i].name == name
  }

  ghost predicate OneName(log: seq<Entry>) {
    forall i, j | Own(log, i) && Own(log, j) :: log[i].name == log[j].name
  }

  ghost predicate LockedOk(log: seq<Entry>, locked: bool, name: string) {
    locked ==> NamedUpTo(log, |log|, name) && exists k :: Own(log, k)
  }

  /** A request still on its way, or being sealed, names the sender of every own
      event before its place. */
  ghost predicate WireNames(log: seq<Entry>, wire: set<Post>) {
    forall p | p in wire :: NamedUpTo(log, p.prev, p.from)
  }

  ghost predicate SealNames(log: seq<Entry>, calls: map<nat, Call>) {
    forall id | id in calls && calls[id].Sealing? :: NamedUpTo(log, calls[id].prev, calls[id].sender)
  }

  ghost predicate Evidence(attempts: seq<Attempt>, pos: int, token: nat, name: string) {
    Attempt(pos, token, name) in attempts
  }

  function OpeningAt(current: Option<Delivery>): int {
    if current.Some? && current.value.opening.Some? then current.value.opening.value.pos else -1
  }

  /** While no name is locked, no own event has been delivered, and there is an
      attempt on record for each own event to come and each request that could
      still commit. */
  ghost predicate Evident(log: seq<Entry>, wire: set<Post>, attempts: seq<Attempt>, last: int, opening: int) {
    && (forall k | Own(log, k) :: last < k && Evidence(attempts, k, log[k].token, log[k].name))
    && !Own(log, opening)
    && (forall p | p in wire && p.prev == |log| - 1 :: Evidence(attempts, p.prev + 1, p.token, p.from))
  }

  ghost predicate Names(c: Client, log: seq<Entry>, alive: bool, wire: set<Post>) {
    && OneName(log)
    && LockedOk(log, c.locked, c.name)
    && (alive ==>
          && WireNames(log, wire)
          && SealNames(log, c.calls)
          && (!c.locked ==> Evident(log, wire, c.attempts, c.last, OpeningAt(c.current))))
  }

  // ---- Calls ----

  ghost predicate MayCommit(sent: set<Post>, wire: set<Post>, outcome: map<nat, Outcome>, p: Post) {
    p in sent && (p in wire || (p.token in outcome && outcome[p.token] == Committed))
  }

  ghost predicate AtMostOne(sent: set<Post>, wire: set<Post>, outcome: map<nat, Outcome>, id: nat) {
    forall p, q | MayCommit(sent, wire, outcome, p) && MayCommit(sent, wire, outcome, q) && p.call == id && q.call == id :: p == q
  }

  ghost predicate CallOk(log: seq<Entry>, sent: set<Post>, wire: set<Post>, outcome: map<nat, Outcome>, id: nat, k: Call) {
    match k
    case Posting(_, _, a) => forall p | MayCommit(sent, wire, outcome, p) && p.call == id :: p.token == a.token
    case Returned => AtMostOne(sent, wire, outcome, id) && exists i :: 0 <= i < |log| && log[i].call == Some(id)
    case Thrown => AtMostOne(sent, wire, outcome, id)
    case _ => forall p | MayCommit(sent, wire, outcome, p) :: p.call != id
  }

  ghost predicate PostedBy(sent: set<Post>, token: nat, id: nat) {
    exists p :: p in sent && p.token == token && p.call == id
  }

  ghost predicate Calls(calls: map<nat, Call>, log: seq<Entry>, sent: set<Post>, wire: set<Post>, outcome: map<nat, Outcome>) {
    && (forall id | id in calls :: CallOk(log, sent, wire, outcome, id, calls[id]))
    && (forall id | id in calls && calls[id].Posting? :: PostedBy(sent, calls[id].attempt.token, id))
    && (forall p | p in sent :: p.call in calls)
  }

  ghost predicate Inv(s: System) {
    && Flow(s.c, s.log)
    && Ledger(s.log, s.sent, s.wire, s.outcome, s.nextToken, s.nextCall)
    && Knows(s.sent, s.c.attempts, s.c.calls, s.c.last, s.nextCall)
    && Names(s.c, s.log, s.alive, s.wire)
    && Calls(s.c.calls, s.log, s.sent, s.wire, s.outcome)
  }

  lemma {:induction false} FindIs(attempts: seq<Attempt>, e: Envelope)
    ensures Find(attempts, e).Some? ==> Find(attempts, e).value in attempts && Matches(Find(attempts, e).value, e)
    ensures Find(attempts, e).None? ==> forall a | a in attempts :: !Matches(a, e)
  {
    if attempts != [] && !Matches(attempts[0], e) { FindIs(attempts[1..], e); }
  }

  // ---- Flow ----

  lemma {:induction false} PageSame(log: seq<Entry>, log': seq<Entry>, a: nat, b: nat)
    requires a <= b <= |log| <= |log'| && forall i | 0 <= i < |log| :: log'[i] == log[i]
    ensures Page(log, a, b) == Page(log', a, b)
    decreases b - a
  {
    if a < b { PageSame(log, log', a + 1, b); }
  }

  lemma PageSnoc(log: seq<Entry>, k: nat)
    requires k < |log|
    ensures Page(log, 0, k + 1) == Page(log, 0, k) + [Envelope(k, log[k].token)]
  {
  }

  lemma FlowGrows(c: Client, log: seq<Entry>, e: Entry)
    requires Flow(c, log)
    ensures Flow(c, log + [e])
  {
    hide Page;
    PageSame(log, log + [e], 0, c.last + 1);
  }

  lemma FlowEnqueue(c: Client, log: seq<Entry>, a: nat, b: nat)
    requires Flow(c, log) && a <= b <= |log| && a <= c.last + 1
    ensures Flow(Enqueue(c, Page(log, a, b)), log)
  {
    hide Page, DeliveryOk;
    assert Stretch(log, c.last, Page(log, a, b));
  }

  lemma FlowTake(c: Client, log: seq<Entry>)
    requires Flow(c, log)
    ensures Flow(TakePage(c), log)
  {
  }

  lemma FlowNext(c: Client, log: seq<Entry>)
    requires Flow(c, log)
    ensures Flow(ObserveNext(c), log)
  {
    if c.current.Some? && c.current.value.opening.None? && c.current.value.rest != [] {
      var p := c.current.value.rest;
      assert forall i | 0 <= i < |p| - 1 :: p[1..][i] == p[i + 1];
      if p[0].pos <= c.last {
        assert Stretch(log, c.last, p[1..]);
      } else {
        assert Stretch(log, c.last + 1, p[1..]);
      }
    }
  }

  lemma FlowOpened(c: Client, log: seq<Entry>)
    requires Flow(c, log)
    ensures Flow(Opened(c), log)
  {
    hide Page;
    if c.current.Some? && c.current.value.opening.Some? { PageSnoc(log, c.last + 1); }
  }

  // ---- Locking ----

  lemma LockNames(log: seq<Entry>, from: string, k: nat)
    requires OneName(log) && OwnAs(log, k, from)
    ensures LockedOk(log, true, from)
  {
  }

  /** A name is only ever locked to the sender of an own event in the log. */
  lemma LockKept(s: System, from: string, k: nat)
    requires OwnAs(s.log, k, from)
    requires Inv(s)
    ensures Inv(s.(c := LockName(s.c, from)))
  {
    hide Stretch, Page, DeliveryOk, Ledger, Calls, LockedOk, WireNames, SealNames, Evident, OneName;
    LockNames(s.log, from, k);
  }

  /** The attempt an own event matches names its sender. */
  lemma MatchIsOwn(s: System, a: Attempt, e: Envelope)
    requires a in s.c.attempts && Matches(a, e) && Stored(s.log, e)
    requires Inv(s)
    ensures OwnAs(s.log, e.pos, a.from)
  {
    hide Names, Calls, Flow;
    var p :| p in s.sent && p.token == a.token && p.prev + 1 == a.pos && p.from == a.from;
    assert s.outcome[p.token] == Committed;
  }

  lemma EvidentAfter(log: seq<Entry>, wire: set<Post>, attempts: seq<Attempt>, last: int, opening: int, pos: nat)
    requires Evident(log, wire, attempts, last, opening) && pos < |log| && pos <= last + 1 && !Own(log, pos)
    ensures Evident(log, wire, After(attempts, pos), last, pos)
    ensures Evident(log, wire, After(attempts, pos), last, -1)
  {
    hide After;
    forall k | Own(log, k) ensures Evidence(After(attempts, pos), k, log[k].token, log[k].name) {
      assert Evidence(attempts, k, log[k].token, log[k].name);
    }
    forall p | p in wire && p.prev == |log| - 1 ensures Evidence(After(attempts, pos), p.prev + 1, p.token, p.from) {
      assert Evidence(attempts, p.prev + 1, p.token, p.from);
    }
  }

  /** While no name is locked, an own event matches an attempt on record. */
  lemma OwnIsMatched(s: System, e: Envelope)
    requires s.alive && !s.c.locked && Stored(s.log, e)
    requires Inv(s)
    ensures Own(s.log, e.pos) ==> Find(s.c.attempts, e).Some?
  {
    hide Ledger, Knows, Calls, Flow, WireNames, SealNames, LockedOk, OneName, Find;
    FindIs(s.c.attempts, e);
    if Own(s.log, e.pos) {
      assert Evidence(s.c.attempts, e.pos, s.log[e.pos].token, s.log[e.pos].name);
    }
  }

  /** Observing an event that is not past the cursor by more than one. */
  lemma ObserveKept(s: System, e: Envelope, current: Option<Delivery>)
    requires Stored(s.log, e) && e.pos <= s.c.last + 1
    requires OpeningAt(current) == e.pos || OpeningAt(current) == -1
    requires Flow(s.c.(current := current), s.log)
    requires Inv(s)
    ensures Inv(s.(c := Observe(s.c, e).(current := current)))
  {
    hide Stretch, Page, DeliveryOk, Ledger, Calls, LockedOk, WireNames, SealNames, Evident, OneName, Inv, After, Find;
    FindIs(s.c.attempts, e);
    var own := Find(s.c.attempts, e);
    if own.Some? {
      MatchIsOwn(s, own.value, e);
      LockKept(s, own.value.from, e.pos);
      InvIs(s.(c := LockName(s.c, own.value.from)));
    } else {
      InvIs(s);
      if s.alive && !s.c.locked {
        OwnIsMatched(s, e);
        EvidentAfter(s.log, s.wire, s.c.attempts, s.c.last, OpeningAt(s.c.current), e.pos);
      }
    }
    InvIs(s.(c := Observe(s.c, e).(current := current)));
  }

  lemma InvIs(s: System)
    ensures Inv(s) ==
      (&& Flow(s.c, s.log)
       && Ledger(s.log, s.sent, s.wire, s.outcome, s.nextToken, s.nextCall)
       && Knows(s.sent, s.c.attempts, s.c.calls, s.c.last, s.nextCall)
       && Names(s.c, s.log, s.alive, s.wire)
       && Calls(s.c.calls, s.log, s.sent, s.wire, s.outcome))
  {
    hide Calls, Flow, Knows, Ledger, Names;
  }
}
