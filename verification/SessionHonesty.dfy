/** Exactly when a refusal is safe: a server that refuses a post which did or still
    can commit makes an unlocked session drop its evidence, and then send under a
    second name. The celld server can do so. */
module SessionHonesty {
  import opened Options
  import opened Session
  import opened SessionProtocol
  import opened SessionProofs
  import opened SessionSteps

  /** A refusal given whatever became of the post. */
  function RefusedAnyway(s: System, id: nat): System { s.(c := TakeReply(s.c, id, Rejected)) }

  /** The post of a call has been committed, or is on its way and prepared at the head. */
  ghost predicate CanCommit(s: System, a: Attempt) {
    || HasCommitted(s, a.token)
    || exists p :: p in s.wire && p.token == a.token && p.prev == |s.log| - 1
  }

  ghost predicate AtRisk(s: System, a: Attempt) {
    s.alive && !s.c.locked && !s.c.gone && CanCommit(s, a)
  }

  // ---- Two more facts about every run ----

  ghost predicate Counted(c: Client) {
    c.delivered + |c.queue| + (if c.current.Some? then 1 else 0) == c.enqueued
  }

  ghost predicate SentBehind(sent: set<Post>, last: int) { forall p | p in sent :: p.prev <= last }

  ghost predicate Extra(s: System) {
    Counted(s.c) && SentBehind(s.sent, s.c.last) && (s.c.gone ==> !s.alive)
  }

  lemma ExtraAnswered(s: System, id: nat, answer: Answer)
    requires Inv(s) && Extra(s)
    ensures Extra(Apply(s, Answered(id, answer)))
  {
    hide Inv, Page, SentBehind;
  }

  lemma ExtraSealed(s: System, id: nat)
    requires Inv(s) && Extra(s)
    ensures Extra(Apply(s, Sealed(id)))
  {
    hide Flow, Ledger, Names, Calls, SentAs;
  }

  lemma ExtraOther(s: System, ev: Event)
    requires !ev.NextPage? && !ev.NextEvent? && !ev.EventOpened? && !ev.EventFailed? && !ev.Answered? && !ev.Sealed?
    requires Extra(s)
    ensures Extra(Apply(s, ev))
  {
    hide Page;
  }

  lemma ExtraKept(s: System, ev: Event)
    requires Inv(s) && Extra(s)
    ensures Extra(Apply(s, ev))
  {
    hide Ledger, Names, Calls, Page, Find, Stretch, Knows;
    match ev
    case Answered(id, answer) => ExtraAnswered(s, id, answer);
    case Sealed(id) => ExtraSealed(s, id);
    case NextPage =>
    case NextEvent =>
    case EventOpened =>
    case EventFailed =>
    case _ => ExtraOther(s, ev);
  }

  lemma {:induction false} ExtraRun(s: System, evs: seq<Event>)
    requires Inv(s) && Extra(s)
    ensures Inv(Run(s, evs)) && Extra(Run(s, evs))
    decreases |evs|
  {
    hide Inv, Extra, Apply;
    if evs != [] {
      EventKept(s, evs[0]);
      ExtraKept(s, evs[0]);
      ExtraRun(Apply(s, evs[0]), evs[1..]);
    }
  }

  /** While no name is locked, an own event can only be the next one to deliver. */
  lemma OwnIsNext(s: System, k: int)
    requires s.alive && !s.c.locked && Own(s.log, k)
    requires Inv(s) && Extra(s)
    ensures k == s.c.last + 1
  {
    hide Flow, Knows, Calls, WireNames, SealNames, LockedOk, OneName;
    assert Post(k - 1, s.log[k].token, s.log[k].name, s.log[k].call.value) in s.sent;
  }

  // ---- A refusal that is safe ----

  lemma EvidentWithoutHead(log: seq<Entry>, wire: set<Post>, attempts: seq<Attempt>, last: int, opening: int, a: Attempt)
    requires Evident(log, wire, attempts, last, opening)
    requires forall k | Own(log, k) :: log[k].token != a.token
    requires forall p | p in wire && p.prev == |log| - 1 :: p.token != a.token
    ensures Evident(log, wire, Without(attempts, a), last, opening)
  {
    forall k | Own(log, k) ensures Evidence(Without(attempts, a), k, log[k].token, log[k].name) {
      assert Evidence(attempts, k, log[k].token, log[k].name);
    }
    forall p | p in wire && p.prev == |log| - 1 ensures Evidence(Without(attempts, a), p.prev + 1, p.token, p.from) {
      assert Evidence(attempts, p.prev + 1, p.token, p.from);
    }
  }

  lemma OwnCommitted(s: System, k: nat, token: nat)
    requires Own(s.log, k) && Stored(s.log, Envelope(k, token))
    requires Inv(s)
    ensures HasCommitted(s, token)
  {
    hide Flow, Knows, Calls, Names;
  }

  /** Dropping the evidence of a post that can no longer commit keeps the invariant. */
  lemma SafeToRefuse(s: System, id: nat, a: Attempt)
    requires PostingAs(s, id, a) && !AtRisk(s, a)
    requires Inv(s) && Extra(s)
    ensures Inv(RefusedAnyway(s, id))
  {
    hide Page, Stretch, DeliveryOk, Calls, LockedOk, WireNames, SealNames, Evident, OneName, SentAs, Ledger,
         CanCommit, Without;
    var c := s.c.(attempts := Without(s.c.attempts, a));
    if s.alive && !s.c.locked {
      forall k | Own(s.log, k) ensures s.log[k].token != a.token { OwnCommitted(s, k, s.log[k].token); NotCommitted(s, a); }
      NotCommitted(s, a);
      EvidentWithoutHead(s.log, s.wire, s.c.attempts, s.c.last, OpeningAt(s.c.current), a);
    }
    assert Inv(s.(c := c));
    UnclearKept(s.(c := c), id);
  }

  lemma NotCommitted(s: System, a: Attempt)
    requires !CanCommit(s, a)
    ensures !HasCommitted(s, a.token)
    ensures forall p | p in s.wire && p.prev == |s.log| - 1 :: p.token != a.token
  {
  }

  // ---- A refusal that is not ----

  ghost predicate NoMatch(attempts: seq<Attempt>, log: seq<Entry>) {
    forall a, i | a in attempts && 0 <= i < |log| :: !(a.pos == i && a.token == log[i].token)
  }

  /** Nothing on record matches the log any more, so no delivery locks the name. */
  ghost predicate Unwitting(s: System) {
    && s.alive && !s.c.locked && !s.c.gone
    && Flow(s.c, s.log) && NoMatch(s.c.attempts, s.log) && Counted(s.c) && s.nextCall !in s.c.calls
  }

  /** Delivering, and nothing else, has happened. */
  ghost predicate OnlyDelivered(s: System, t: System) {
    t == s.(c := t.c) && Unwitting(t)
  }

  ghost predicate Delivers(ev: Event) { ev.NextPage? || ev.NextEvent? || ev.EventOpened? || ev.Polled? }

  lemma UnwittingObserves(s: System)
    requires Unwitting(s)
    ensures OnlyDelivered(s, Apply(s, NextEvent))
  {
    hide Page, Flow, Find;
    FlowNext(s.c, s.log);
    if s.c.current.Some? && s.c.current.value.opening.None? && s.c.current.value.rest != [] {
      var e := s.c.current.value.rest[0];
      FindIs(s.c.attempts, e);
      RestInLog(s);
    }
  }

  lemma RestInLog(s: System)
    requires Flow(s.c, s.log) && s.c.current.Some? && s.c.current.value.opening.None? && s.c.current.value.rest != []
    ensures var e := s.c.current.value.rest[0]; e.pos < |s.log| && e.token == s.log[e.pos].token
  {
    hide Page;
  }

  lemma UnwittingDelivers(s: System, ev: Event)
    requires Delivers(ev)
    requires Unwitting(s)
    ensures OnlyDelivered(s, Apply(s, ev))
  {
    hide Page, Flow, Find, NoMatch;
    match ev
    case NextPage => FlowTake(s.c, s.log);
    case NextEvent => UnwittingObserves(s);
    case EventOpened => FlowOpened(s.c, s.log);
    case Polled(since, upto) =>
      if -1 <= since <= s.c.last && since + 1 <= upto <= |s.log| { FlowEnqueue(s.c, s.log, since + 1, upto); }
  }

  lemma {:induction false} RunJoin(s: System, a: seq<Event>, b: seq<Event>)
    ensures Run(s, a + b) == Run(Run(s, a), b)
    decreases |a|
  {
    hide Apply;
    if a == [] {
      assert a + b == b;
    } else {
      assert (a + b)[1..] == a[1..] + b;
      RunJoin(Apply(s, a[0]), a[1..], b);
    }
  }

  /** No answer to a post is among the events, and the server refuses none. */
  ghost predicate Plain(evs: seq<Event>) {
    forall ev | ev in evs :: !ev.Answered? && !ev.OtherWrites? && (ev.ServerTakes? ==> !ev.refuse)
  }

  lemma OneMore(s: System, ev: Event, t: System, rest: seq<Event>)
    requires t == Run(Apply(s, ev), rest) && Plain(rest) && Plain([ev])
    ensures Run(s, [ev] + rest) == t && Plain([ev] + rest)
  {
    hide Apply;
    assert ([ev] + rest)[1..] == rest;
    assert ev in [ev];
  }

  function WorkOf(current: Option<Delivery>): nat {
    if current.None? then 0 else 1 + 2 * |current.value.rest| + if current.value.opening.Some? then 1 else 0
  }

  /** What is queued can be delivered. */
  lemma Drain(s: System) returns (evs: seq<Event>, t: System)
    requires Unwitting(s)
    ensures t == Run(s, evs) && Plain(evs) && OnlyDelivered(s, t) && t.c.current.None? && t.c.queue == []
    decreases |s.c.queue|, WorkOf(s.c.current)
  {
    hide Unwitting, Page;
    if s.c.current.None? && s.c.queue == [] {
      evs, t := [], s;
    } else {
      var ev := if s.c.current.None? then NextPage else if s.c.current.value.opening.Some? then EventOpened else NextEvent;
      UnwittingDelivers(s, ev);
      WorkShrinks(s, ev);
      var s1 := Apply(s, ev);
      var rest;
      hide Apply;
      rest, t := Drain(s1);
      OneMore(s, ev, t, rest);
      evs := [ev] + rest;
    }
  }

  lemma WorkShrinks(s: System, ev: Event)
    requires ev == if s.c.current.None? then NextPage else if s.c.current.value.opening.Some? then EventOpened else NextEvent
    requires s.c.current.Some? || s.c.queue != []
    ensures var c := Apply(s, ev).c;
      |c.queue| < |s.c.queue| || (c.queue == s.c.queue && WorkOf(c.current) < WorkOf(s.c.current))
  {
    hide Find, After;
  }

  /** One page up to the head, event by event. */
  lemma DeliverPage(s: System) returns (evs: seq<Event>, t: System)
    requires -1 <= s.c.last < |s.log|
    requires s.c.current == Some(Delivery(None, Page(s.log, s.c.last + 1, |s.log|))) && s.c.queue == []
    requires Unwitting(s)
    ensures t == Run(s, evs) && Plain(evs) && OnlyDelivered(s, t)
    ensures t.c.current.None? && t.c.queue == [] && t.c.last == |s.log| - 1
    decreases |s.log| - s.c.last
  {
    hide Unwitting, ObserveNext;
    UnwittingDelivers(s, NextEvent);
    var s1 := Apply(s, NextEvent);
    PageStep(s);
    if s.c.last + 1 == |s.log| {
      evs, t := [NextEvent], s1;
      assert Run(s1, []) == s1;
    } else {
      UnwittingDelivers(s1, EventOpened);
      var s2 := Apply(s1, EventOpened);
      hide Apply;
      var rest;
      rest, t := DeliverPage(s2);
      OneMore(s1, EventOpened, t, rest);
      OneMore(s, NextEvent, t, [EventOpened] + rest);
      evs := [NextEvent] + ([EventOpened] + rest);
    }
  }

  lemma PageStep(s: System)
    requires -1 <= s.c.last < |s.log|
    requires s.c.current == Some(Delivery(None, Page(s.log, s.c.last + 1, |s.log|))) && s.c.queue == []
    ensures var c1 := ObserveNext(s.c);
      if s.c.last + 1 == |s.log| then c1.current.None? && c1.last == s.c.last && c1.queue == []
      else var c2 := Opened(c1);
        c2.last == s.c.last + 1 && c2.queue == [] && c2.current == Some(Delivery(None, Page(s.log, s.c.last + 2, |s.log|)))
  {
    hide Find, After;
    if s.c.last + 1 < |s.log| {
      assert Page(s.log, s.c.last + 1, |s.log|)[1..] == Page(s.log, s.c.last + 2, |s.log|);
    }
  }

  /** What the log has beyond the cursor, taken up as one page. */
  lemma TakeRest(s: System) returns (evs: seq<Event>, t: System)
    requires s.c.current.None? && s.c.queue == []
    requires Unwitting(s)
    ensures evs == [Polled(s.c.last, |s.log|), NextPage] && t == Apply(Apply(s, evs[0]), NextPage) && OnlyDelivered(s, t)
    ensures -1 <= t.c.last < |t.log|
    ensures t.c.current == Some(Delivery(None, Page(t.log, t.c.last + 1, |t.log|))) && t.c.queue == []
  {
    hide Page, NoMatch, Stretch;
    evs := [Polled(s.c.last, |s.log|), NextPage];
    UnwittingDelivers(s, evs[0]);
    UnwittingDelivers(Apply(s, evs[0]), NextPage);
    t := Apply(Apply(s, evs[0]), NextPage);
  }

  /** An unwitting session can catch up with the log. */
  lemma CatchUp(s: System) returns (evs: seq<Event>, t: System)
    requires Unwitting(s)
    ensures t == Run(s, evs) && Plain(evs) && OnlyDelivered(s, t)
    ensures t.c.current.None? && t.c.queue == [] && t.c.last == |s.log| - 1
  {
    hide Unwitting, Apply, Page;
    var evs1, s1 := Drain(s);
    var take, s3 := TakeRest(s1);
    var poll := take[0];
    var evs2;
    evs2, t := DeliverPage(s3);
    OneMore(Apply(s1, poll), NextPage, t, evs2);
    OneMore(s1, poll, t, [NextPage] + evs2);
    evs := evs1 + ([poll] + ([NextPage] + evs2));
    RunJoin(s, evs1, [poll] + ([NextPage] + evs2));
    PlainJoin(evs1, [poll] + ([NextPage] + evs2));
  }

  lemma PlainJoin(a: seq<Event>, b: seq<Event>)
    requires Plain(a) && Plain(b)
    ensures Plain(a + b)
  {
  }

  /** A call that meets nothing on its way. */
  function SendEvents(s: System, name: string): seq<Event> {
    var id := s.nextCall;
    [Append(name)] + ([StartSeal(id)] + ([Sealed(id)] + [ServerTakes(Post(s.c.last, s.nextToken, name, id), false)]))
  }

  lemma SendSteps(s: System, name: string) returns (t: System)
    requires s.alive && !s.c.locked && !s.c.gone && s.nextCall !in s.c.calls
    requires s.c.delivered == s.c.enqueued && s.c.last == |s.log| - 1
    ensures var id := s.nextCall;
      t == Apply(Apply(Apply(Apply(s, Append(name)), StartSeal(id)), Sealed(id)), ServerTakes(Post(s.c.last, s.nextToken, name, id), false))
    ensures t.log == s.log + [Entry(s.nextToken, name, Some(s.nextCall))] && t.alive && !t.c.locked && !t.c.gone
    ensures PostingAs(t, s.nextCall, Attempt(s.c.last + 1, s.nextToken, name)) && HasCommitted(t, s.nextToken)
  {
    var id := s.nextCall;
    var s1 := Apply(s, Append(name));
    var s2 := Apply(s1, StartSeal(id));
    assert s2.c.calls[id] == Sealing(name, 0, s.c.last, name);
    var s3 := Apply(s2, Sealed(id));
    assert s3.c.calls[id] == Posting(name, 0, Attempt(s.c.last + 1, s.nextToken, name));
    t := Apply(s3, ServerTakes(Post(s.c.last, s.nextToken, name, id), false));
  }

  lemma SendNow(s: System, name: string) returns (t: System)
    requires s.alive && !s.c.locked && !s.c.gone && s.nextCall !in s.c.calls
    requires s.c.delivered == s.c.enqueued && s.c.last == |s.log| - 1
    ensures t == Run(s, SendEvents(s, name)) && Plain(SendEvents(s, name))
    ensures t.log == s.log + [Entry(s.nextToken, name, Some(s.nextCall))] && t.alive && !t.c.locked && !t.c.gone
    ensures PostingAs(t, s.nextCall, Attempt(s.c.last + 1, s.nextToken, name)) && HasCommitted(t, s.nextToken)
  {
    hide Apply, PostingAs, HasCommitted;
    var id := s.nextCall;
    var take := ServerTakes(Post(s.c.last, s.nextToken, name, id), false);
    t := SendSteps(s, name);
    var s1 := Apply(s, Append(name));
    var s2 := Apply(s1, StartSeal(id));
    var s3 := Apply(s2, Sealed(id));
    assert Run(t, []) == t;
    OneMore(s3, take, t, []);
    OneMore(s2, Sealed(id), t, [take] + []);
    OneMore(s1, StartSeal(id), t, [Sealed(id)] + ([take] + []));
    OneMore(s, Append(name), t, [StartSeal(id)] + ([Sealed(id)] + ([take] + [])));
    assert [take] + [] == [take];
  }

  /** And can then send under any name. */
  lemma PostAtHead(s: System, name: string) returns (evs: seq<Event>, t: System)
    requires s.c.current.None? && s.c.queue == [] && s.c.last == |s.log| - 1
    requires Unwitting(s)
    ensures t == Run(s, evs) && Plain(evs) && t.log == s.log + [Entry(s.nextToken, name, Some(s.nextCall))]
  {
    hide Run, Flow, NoMatch, SendEvents;
    evs := SendEvents(s, name);
    t := SendNow(s, name);
  }

  /** So a session with an own event it can no longer recognise can get a second name
      committed. */
  lemma UnwittingSplits(s: System, k: int) returns (evs: seq<Event>)
    requires Own(s.log, k)
    requires Unwitting(s)
    ensures Plain(evs) && !OneName(Run(s, evs).log)
  {
    hide Unwitting, Apply;
    var evs1, t := CatchUp(s);
    var name := s.log[k].name + "x";
    assert |name| == |s.log[k].name| + 1;
    var evs2, u := PostAtHead(t, name);
    evs := evs1 + evs2;
    RunJoin(s, evs1, evs2);
    PlainJoin(evs1, evs2);
    assert Own(u.log, k) && Own(u.log, |s.log|);
  }

  // ---- After the refusal ----

  lemma PostOf(s: System, id: nat, a: Attempt) returns (p: Post)
    requires PostingAs(s, id, a)
    requires Inv(s)
    ensures p in s.sent && p.token == a.token && p.prev + 1 == a.pos && p.from == a.from
    ensures forall q | q in s.sent && q.token == p.token :: q == p
  {
    hide Flow, Names, Calls;
    p :| p in s.sent && p.token == a.token && p.prev + 1 == a.pos && p.from == a.from;
  }

  lemma AttemptOf(s: System, b: Attempt) returns (p: Post)
    requires b in s.c.attempts
    requires Inv(s)
    ensures p in s.sent && p.token == b.token && p.prev + 1 == b.pos && p.from == b.from
  {
    hide Flow, Names, Calls, Ledger;
    assert SentAs(s.sent, b);
    p :| p in s.sent && p.token == b.token && p.prev + 1 == b.pos && p.from == b.from;
  }

  /** The refused post was the session's only own event. */
  lemma NothingElseMatches(s: System, id: nat, a: Attempt)
    requires PostingAs(s, id, a) && AtRisk(s, a)
    requires Inv(s) && Extra(s)
    ensures NoMatch(Without(s.c.attempts, a), s.log)
  {
    hide Flow, Ledger, Knows, Names, Calls;
    var p := PostOf(s, id, a);
    forall b, i | b in Without(s.c.attempts, a) && 0 <= i < |s.log| ensures !(b.pos == i && b.token == s.log[i].token) {
      if b.pos == i && b.token == s.log[i].token {
        OnlyOwn(s, id, a, b, Envelope(i, b.token));
      }
    }
  }

  lemma OnlyOwn(s: System, id: nat, a: Attempt, b: Attempt, e: Envelope)
    requires PostingAs(s, id, a) && AtRisk(s, a)
    requires b in s.c.attempts && Matches(b, e) && Stored(s.log, e)
    requires Inv(s) && Extra(s)
    ensures b == a
  {
    hide Extra, CallOk, Inv, Own;
    MatchIsOwn(s, b, e);
    OwnIsNext(s, e.pos);
    var p := PostOf(s, id, a);
    if HasCommitted(s, a.token) {
      var k := PostingCommitted(s, id, a);
      CommittedAt(s, p);
      OwnIsNext(s, p.prev + 1);
    } else {
      var q :| q in s.wire && q.token == a.token && q.prev == |s.log| - 1;
      WireBehind(s, q);
      assert false;
    }
  }

  /** The event of a committed post is where the post was prepared for. */
  ghost predicate HoldsPost(log: seq<Entry>, p: Post) {
    Own(log, p.prev + 1) && log[p.prev + 1] == Entry(p.token, p.from, Some(p.call))
  }

  lemma CommittedAt(s: System, p: Post)
    requires p in s.sent && HasCommitted(s, p.token)
    requires Inv(s)
    ensures HoldsPost(s.log, p)
  {
    hide Flow, Knows, Names, Calls;
    assert p.prev >= -1;
  }

  lemma WireBehind(s: System, q: Post)
    requires q in s.wire
    requires Inv(s) && Extra(s)
    ensures q.prev <= s.c.last < |s.log|
  {
    hide Knows, Names, Calls, Page, Stretch;
  }

  lemma RefusedParts(s: System, id: nat, a: Attempt)
    requires PostingAs(s, id, a)
    ensures var t := RefusedAnyway(s, id);
      && t == s.(c := t.c) && t.c.attempts == Without(s.c.attempts, a) && t.c.calls.Keys == s.c.calls.Keys
      && t.c.last == s.c.last && t.c.queue == s.c.queue && t.c.current == s.c.current && t.c.presented == s.c.presented
      && t.c.enqueued == s.c.enqueued && t.c.delivered == s.c.delivered && t.c.locked == s.c.locked && t.c.gone == s.c.gone
  {
  }

  lemma FreshCall(s: System)
    requires Inv(s)
    ensures s.nextCall !in s.c.calls
  {
    hide Flow, Names, Calls, Ledger, SentAs;
  }

  lemma CommittedSplits(s: System, id: nat, a: Attempt) returns (evs: seq<Event>)
    requires PostingAs(s, id, a) && AtRisk(s, a) && HasCommitted(s, a.token)
    requires Inv(s) && Extra(s)
    ensures Plain(evs) && !OneName(Run(RefusedAnyway(s, id), evs).log)
  {
    hide Stretch, Page, DeliveryOk, Ledger, Knows, Names, Calls, NoMatch, Apply, RefusedAnyway;
    var k := PostingCommitted(s, id, a);
    NothingElseMatches(s, id, a);
    RefusedParts(s, id, a);
    FreshCall(s);
    evs := UnwittingSplits(RefusedAnyway(s, id), k);
  }

  lemma WireSplits(s: System, id: nat, a: Attempt, p: Post) returns (evs: seq<Event>)
    requires PostingAs(s, id, a) && AtRisk(s, a)
    requires p in s.wire && p.token == a.token && p.prev == |s.log| - 1
    requires Inv(s) && Extra(s)
    ensures Plain(evs) && !OneName(Run(RefusedAnyway(s, id), evs).log)
  {
    hide Stretch, Page, DeliveryOk, Ledger, Knows, Names, Calls, RefusedAnyway, Without;
    NothingElseMatches(s, id, a);
    RefusedParts(s, id, a);
    FreshCall(s);
    var t := RefusedAnyway(s, id);
    var e := Entry(p.token, p.from, Some(p.call));
    var u := Apply(t, ServerTakes(p, false));
    assert u.log == s.log + [e] && u.c == t.c && u.alive && u.nextCall == s.nextCall;
    FlowGrows(s.c, s.log, e);
    FlowSame(s.c, t.c, u.log);
    NoneNew(s, id, a, p);
    hide Apply;
    var rest := UnwittingSplits(u, |s.log|);
    OneMore(t, ServerTakes(p, false), Run(u, rest), rest);
    evs := [ServerTakes(p, false)] + rest;
  }

  lemma FlowSame(c: Client, d: Client, log: seq<Entry>)
    requires Flow(c, log) && d.last == c.last && d.queue == c.queue && d.current == c.current && d.presented == c.presented
    ensures Flow(d, log)
  {
  }

  lemma NoneNew(s: System, id: nat, a: Attempt, p: Post)
    requires PostingAs(s, id, a) && NoMatch(Without(s.c.attempts, a), s.log)
    requires p in s.wire && p.token == a.token
    requires Inv(s)
    ensures NoMatch(Without(s.c.attempts, a), s.log + [Entry(p.token, p.from, Some(p.call))])
  {
    hide Flow, Ledger, Knows, Names, Calls;
    var q := PostOf(s, id, a);
    forall b | b in Without(s.c.attempts, a) ensures b.token != p.token {
      var r := AttemptOf(s, b);
    }
  }

  /** In every reachable state a refusal of a post is followed, in some continuation,
      by two names if and only if the channel is there, the session is unlocked and
      has not found it gone, and the post was committed or can still be. So the name
      theorem needs honesty exactly about those. */
  lemma RefusalSplitsExactly(s0: System, before: seq<Event>, id: nat, a: Attempt)
    requires PostingAs(Run(s0, before), id, a)
    requires Init(s0)
    ensures (exists evs :: !OneName(Run(RefusedAnyway(Run(s0, before), id), evs).log)) <==> AtRisk(Run(s0, before), a)
  {
    hide *;
    var s := Run(s0, before);
    ReachedWith(s0, before);
    if AtRisk(s, a) {
      var evs := RiskSplits(s, id, a);
    } else {
      SafeToRefuse(s, id, a);
      forall evs ensures OneName(Run(RefusedAnyway(s, id), evs).log) {
        RunKept(RefusedAnyway(s, id), evs);
        InvOneName(Run(RefusedAnyway(s, id), evs));
      }
    }
  }

  lemma InvOneName(s: System)
    requires Inv(s)
    ensures OneName(s.log)
  {
    hide OneName, Calls, Flow, Knows, Ledger;
  }

  lemma ReachedWith(s0: System, before: seq<Event>)
    requires Init(s0)
    ensures Inv(Run(s0, before)) && Extra(Run(s0, before))
  {
    hide Inv;
    InitHolds(s0);
    ExtraRun(s0, before);
  }

  lemma RiskSplits(s: System, id: nat, a: Attempt) returns (evs: seq<Event>)
    requires PostingAs(s, id, a) && AtRisk(s, a)
    requires Inv(s) && Extra(s)
    ensures Plain(evs) && !OneName(Run(RefusedAnyway(s, id), evs).log)
  {
    hide Inv, Extra, Apply, RefusedAnyway, OneName;
    if HasCommitted(s, a.token) {
      evs := CommittedSplits(s, id, a);
    } else {
      var p :| p in s.wire && p.token == a.token && p.prev == |s.log| - 1;
      evs := WireSplits(s, id, a, p);
    }
  }

  // ---- The celld server ----

  /** The log with the lifecycle of its chat: writes need it available, and a post is
      answered by a poll after its commit, which needs it too. */
  datatype Celld = Celld(s: System, available: bool)

  datatype CelldEvent =
    | Base(ev: Event)
    | Busy                       // an operation begins and the chat is unavailable
    | Back                       // it ends, the content as before
    | TrailingPoll(call: nat)    // the answer to a committed post

  function CelldApply(t: Celld, ev: CelldEvent): Celld {
    match ev
    case Base(ServerTakes(p, refuse)) => t.(s := Apply(t.s, ServerTakes(p, refuse || !t.available)))
    case Base(OtherWrites(name)) => if t.available then t.(s := Apply(t.s, OtherWrites(name))) else t
    case Base(Answered(id, Ok)) => t
    case Base(e) => t.(s := Apply(t.s, e))
    case Busy => t.(available := false)
    case Back => t.(available := true)
    case TrailingPoll(id) =>
      if id in t.s.c.calls && t.s.c.calls[id].Posting? && Honest(t.s, t.s.c.calls[id].attempt, Ok)
      then t.(s := t.s.(c := TakeReply(t.s.c, id, if t.available then Accepted else Rejected))) else t
  }

  function CelldRun(t: Celld, evs: seq<CelldEvent>): Celld
    decreases |evs|
  {
    if evs == [] then t else CelldRun(CelldApply(t, evs[0]), evs[1..])
  }

  function Lift(evs: seq<Event>): seq<CelldEvent> {
    if evs == [] then [] else [Base(evs[0])] + Lift(evs[1..])
  }

  /** While the chat is available, the same happens as on the other server. */
  lemma {:induction false} LiftRuns(s: System, evs: seq<Event>)
    requires Plain(evs)
    ensures CelldRun(Celld(s, true), Lift(evs)) == Celld(Run(s, evs), true)
    decreases |evs|
  {
    hide Apply;
    if evs != [] {
      assert evs[0] in evs;
      forall e | e in evs[1..] ensures !e.Answered? && !e.OtherWrites? && (e.ServerTakes? ==> !e.refuse) { assert e in evs; }
      LiftRuns(Apply(s, evs[0]), evs[1..]);
    }
  }

  lemma {:induction false} CelldJoin(t: Celld, a: seq<CelldEvent>, b: seq<CelldEvent>)
    ensures CelldRun(t, a + b) == CelldRun(CelldRun(t, a), b)
    decreases |a|
  {
    hide CelldApply;
    if a == [] {
      assert a + b == b;
    } else {
      assert (a + b)[1..] == a[1..] + b;
      CelldJoin(CelldApply(t, a[0]), a[1..], b);
    }
  }

  /** The chat is taken out of use between the commit and the poll that answers. */
  lemma BusyRefuses(s: System, id: nat, a: Attempt)
    requires PostingAs(s, id, a) && Honest(s, a, Ok)
    ensures CelldRun(Celld(s, true), [Busy, TrailingPoll(id), Back]) == Celld(RefusedAnyway(s, id), true)
  {
    hide TakeReply, Honest, Apply;
    var t1 := CelldApply(Celld(s, true), Busy);
    var t2 := CelldApply(t1, TrailingPoll(id));
    var t3 := CelldApply(t2, Back);
    assert [Busy, TrailingPoll(id), Back][1..] == [TrailingPoll(id), Back];
    assert [TrailingPoll(id), Back][1..] == [Back];
    assert CelldRun(t2, [Back]) == CelldRun(t3, []);
    assert CelldRun(t1, [TrailingPoll(id), Back]) == t3;
  }

  /** Wherever an unlocked session waits for the answer to a committed post, the celld
      server can make it send under a second name. */
  lemma CelldSplits(s0: System, before: seq<Event>, id: nat, a: Attempt) returns (evs: seq<CelldEvent>)
    requires PostingAs(Run(s0, before), id, a) && AtRisk(Run(s0, before), a) && Honest(Run(s0, before), a, Ok)
    requires Init(s0)
    ensures !OneName(CelldRun(Celld(Run(s0, before), true), evs).s.log)
  {
    hide *;
    var s := Run(s0, before);
    ReachedWith(s0, before);
    var rest := RiskSplits(s, id, a);
    BusyRefuses(s, id, a);
    LiftRuns(RefusedAnyway(s, id), rest);
    evs := [Busy, TrailingPoll(id), Back] + Lift(rest);
    CelldJoin(Celld(s, true), [Busy, TrailingPoll(id), Back], Lift(rest));
  }

  /** And it can come to that from the very first post. */
  lemma CelldSplitsFirstPost(s: System) returns (evs: seq<CelldEvent>)
    requires s.log == []
    requires Init(s)
    ensures !OneName(CelldRun(Celld(s, true), evs).s.log)
  {
    hide *;
    var id := s.nextCall;
    var first, t, a := FirstPost(s);
    var rest := CelldSplits(s, first, id, a);
    LiftRuns(s, first);
    evs := Lift(first) + rest;
    CelldJoin(Celld(s, true), Lift(first), rest);
  }

  lemma FirstPost(s: System) returns (evs: seq<Event>, t: System, a: Attempt)
    requires s.log == []
    requires Init(s)
    ensures t == Run(s, evs) && Plain(evs) && PostingAs(t, s.nextCall, a) && Honest(t, a, Ok) && AtRisk(t, a)
  {
    hide Run, SendEvents, Plain;
    evs := SendEvents(s, "a");
    t := SendNow(s, "a");
    a := Attempt(s.c.last + 1, s.nextToken, "a");
  }
}
