/** Every event of the session protocol keeps the invariant. */
module SessionSteps {
  import opened Options
  import opened Session
  import opened SessionProtocol
  import opened SessionProofs

  // ---- Moves of one call ----

  /** A call moves on without a request of its own in doubt. */
  lemma CallsSet(calls: map<nat, Call>, log: seq<Entry>, sent: set<Post>, wire: set<Post>, outcome: map<nat, Outcome>, id: nat, k: Call)
    requires Calls(calls, log, sent, wire, outcome) && CallOk(log, sent, wire, outcome, id, k) && !k.Posting?
    ensures Calls(calls[id := k], log, sent, wire, outcome)
  {
    hide CallOk, PostedBy;
  }

  lemma KnowsSet(sent: set<Post>, attempts: seq<Attempt>, calls: map<nat, Call>, last: int, nextCall: nat, id: nat, k: Call)
    requires Knows(sent, attempts, calls, last, nextCall) && id < nextCall && !k.Posting?
    requires k.Sealing? ==> -1 <= k.prev <= last
    ensures Knows(sent, attempts, calls[id := k], last, nextCall)
  {
    hide SentAs;
  }

  lemma SealSet(log: seq<Entry>, calls: map<nat, Call>, id: nat, k: Call)
    requires SealNames(log, calls) && (k.Sealing? ==> NamedUpTo(log, k.prev, k.sender))
    ensures SealNames(log, calls[id := k])
  {
    hide NamedUpTo;
  }

  ghost predicate QuietMove(s: System, id: nat, k: Call) {
    && id in s.c.calls && !k.Posting?
    && CallOk(s.log, s.sent, s.wire, s.outcome, id, k)
    && (k.Sealing? ==> -1 <= k.prev <= s.c.last && (s.alive ==> NamedUpTo(s.log, k.prev, k.sender)))
  }

  lemma MoveKept(s: System, id: nat, k: Call, pending: nat)
    requires QuietMove(s, id, k)
    requires Inv(s)
    ensures Inv(s.(c := s.c.(pending := pending, calls := s.c.calls[id := k])))
  {
    hide Stretch, Page, DeliveryOk, CallOk, Ledger, Calls, LockedOk, WireNames, SealNames, Evident, OneName, NamedUpTo, Knows;
    assert id < s.nextCall by { KnowsBounds(s, id, s.c.calls[id]); }
    CallsSet(s.c.calls, s.log, s.sent, s.wire, s.outcome, id, k);
    KnowsSet(s.sent, s.c.attempts, s.c.calls, s.c.last, s.nextCall, id, k);
    if s.alive { SealSet(s.log, s.c.calls, id, k); }
  }

  /** What is known of a call from the requests sent so far. */
  ghost predicate InBounds(s: System, k: Call) {
    match k
    case Posting(_, _, a) => SentAs(s.sent, a) && a.pos <= s.c.last + 1
    case Sealing(_, _, prev, _) => -1 <= prev <= s.c.last
    case _ => true
  }

  predicate IsCall(s: System, id: nat, k: Call) { id in s.c.calls && s.c.calls[id] == k }

  lemma KnowsBounds(s: System, id: nat, k: Call)
    requires IsCall(s, id, k)
    requires Inv(s)
    ensures id < s.nextCall && InBounds(s, k)
  {
    hide SentAs, Calls, Flow, Ledger, Names;
  }

  /** A call that has not ended and awaits no answer. */
  predicate Undecided(s: System, id: nat) {
    id in s.c.calls && !s.c.calls[id].Posting? && !s.c.calls[id].Returned? && !s.c.calls[id].Thrown?
  }

  /** A call with no request in doubt can be queued again or end. */
  lemma IdleCall(s: System, id: nat, k: Call)
    requires Undecided(s, id) && !k.Posting? && !k.Returned?
    requires Inv(s)
    ensures CallOk(s.log, s.sent, s.wire, s.outcome, id, k)
  {
    hide Flow, Ledger, Knows, Names, MayCommit;
    assert CallOk(s.log, s.sent, s.wire, s.outcome, id, s.c.calls[id]);
  }

  lemma StartSealKept(s: System, id: nat)
    requires Inv(s)
    ensures Inv(s.(c := BeginSeal(s.c, id)))
  {
    hide CallOk, Inv;
    if !(id !in s.c.calls || !s.c.calls[id].Queued? || s.c.delivered < s.c.calls[id].until) {
      var k := s.c.calls[id];
      if s.c.gone {
        IdleCall(s, id, Thrown);
        MoveKept(s, id, Thrown, if s.c.pending > 0 then s.c.pending - 1 else 0);
      } else {
        var k' := Sealing(k.from, k.tries, s.c.last, if s.c.locked then s.c.name else k.from);
        IdleCall(s, id, k');
        SealNamed(s, k.from);
        MoveKept(s, id, k', s.c.pending);
        assert s.c.(pending := s.c.pending, calls := s.c.calls[id := k']) == BeginSeal(s.c, id);
      }
    }
  }

  /** The sender fixed when sealing starts is that of every own event delivered. */
  lemma SealNamed(s: System, from: string)
    requires Inv(s)
    ensures -1 <= s.c.last < |s.log|
    ensures s.alive ==> NamedUpTo(s.log, s.c.last, if s.c.locked then s.c.name else from)
  {
    hide Ledger, Knows, Calls, OneName, WireNames, SealNames, Stretch, Page, DeliveryOk;
  }

  lemma AfterPageKept(s: System, id: nat, threw: bool)
    requires Inv(s)
    ensures Inv(s.(c := PageDelivered(s.c, id, threw)))
  {
    hide CallOk, Inv;
    if !(id !in s.c.calls || !s.c.calls[id].Delivering? || s.c.delivered < s.c.calls[id].until) {
      var k := s.c.calls[id];
      RetryKept(s, id, k.from, k.tries);
      IdleCall(s, id, Thrown);
      MoveKept(s, id, Thrown, if s.c.pending > 0 then s.c.pending - 1 else 0);
    }
  }

  lemma RetryKept(s: System, id: nat, from: string, tries: nat)
    requires Undecided(s, id)
    requires Inv(s)
    ensures Inv(s.(c := Retry(s.c, id, from, tries)))
  {
    hide CallOk, Inv;
    IdleCall(s, id, Thrown);
    MoveKept(s, id, Thrown, if s.c.pending > 0 then s.c.pending - 1 else 0);
    var k' := Queued(from, tries + 1, s.c.enqueued);
    IdleCall(s, id, k');
    MoveKept(s, id, k', s.c.pending);
    assert s.c.(pending := s.c.pending, calls := s.c.calls[id := k']) == s.c.(calls := s.c.calls[id := k']);
  }

  // ---- The user and new calls ----

  lemma RenameKept(s: System, name: string)
    requires Inv(s)
    ensures Inv(s.(c := SetName(s.c, name)))
  {
    hide Stretch, Page, DeliveryOk, Ledger, Calls, WireNames, SealNames, Evident, OneName, NamedUpTo, Knows;
  }

  lemma AppendCalls(calls: map<nat, Call>, log: seq<Entry>, sent: set<Post>, wire: set<Post>, outcome: map<nat, Outcome>, id: nat, k: Call)
    requires Calls(calls, log, sent, wire, outcome) && id !in calls && k.Queued?
    ensures Calls(calls[id := k], log, sent, wire, outcome)
  {
    assert forall p | MayCommit(sent, wire, outcome, p) :: p.call in calls;
    assert CallOk(log, sent, wire, outcome, id, k);
    CallsSet(calls, log, sent, wire, outcome, id, k);
  }

  lemma AppendKept(s: System, from: string)
    requires Inv(s)
    ensures Inv(Apply(s, Append(from)))
  {
    hide Stretch, Page, DeliveryOk, Calls, LockedOk, WireNames, SealNames, Evident, OneName, NamedUpTo, SentAs, Own;
    var id := s.nextCall;
    var k := Queued(from, 0, s.c.enqueued);
    AppendCalls(s.c.calls, s.log, s.sent, s.wire, s.outcome, id, k);
    if s.alive { SealSet(s.log, s.c.calls, id, k); }
  }

  // ---- Deliveries ----

  lemma EnqueueKept(s: System, a: nat, b: nat)
    requires a <= b <= |s.log| && a <= s.c.last + 1
    requires Inv(s)
    ensures Inv(s.(c := Enqueue(s.c, Page(s.log, a, b))))
  {
    hide Flow, Page, Calls, LockedOk, WireNames, SealNames, Evident, OneName, Ledger, Knows;
    FlowEnqueue(s.c, s.log, a, b);
  }

  lemma NextPageKept(s: System)
    requires Inv(s)
    ensures Inv(s.(c := TakePage(s.c)))
  {
    hide Flow, Calls, LockedOk, WireNames, SealNames, Evident, OneName, Ledger, Knows;
    FlowTake(s.c, s.log);
  }

  lemma NextEventKept(s: System)
    requires Inv(s)
    ensures Inv(s.(c := ObserveNext(s.c)))
  {
    hide Page, Calls, LockedOk, WireNames, SealNames, Evident, OneName, Ledger, Knows, Observe;
    FlowNext(s.c, s.log);
    if s.c.current.Some? && s.c.current.value.opening.None? && s.c.current.value.rest != [] {
      var e := s.c.current.value.rest[0];
      var rest := s.c.current.value.rest[1..];
      var current := Some(Delivery(if e.pos <= s.c.last then None else Some(e), rest));
      ObserveKept(s, e, current);
    }
  }

  lemma EvidentOpened(log: seq<Entry>, wire: set<Post>, attempts: seq<Attempt>, last: int)
    requires Evident(log, wire, attempts, last, last + 1)
    ensures Evident(log, wire, attempts, last + 1, -1)
  {
    hide Evidence;
  }

  lemma EvidentIdle(log: seq<Entry>, wire: set<Post>, attempts: seq<Attempt>, last: int, opening: int)
    requires Evident(log, wire, attempts, last, opening)
    ensures Evident(log, wire, attempts, last, -1)
  {
    hide Evidence;
  }

  lemma KnowsLater(sent: set<Post>, attempts: seq<Attempt>, calls: map<nat, Call>, last: int, last': int, nextCall: nat)
    requires Knows(sent, attempts, calls, last, nextCall) && last <= last'
    ensures Knows(sent, attempts, calls, last', nextCall)
  {
    hide SentAs;
  }

  lemma OpenedKept(s: System)
    requires Inv(s)
    ensures Inv(s.(c := Opened(s.c)))
  {
    hide Page, Stretch, Calls, LockedOk, WireNames, SealNames, Evident, OneName, Ledger, Knows;
    FlowOpened(s.c, s.log);
    if s.c.current.Some? && s.c.current.value.opening.Some? {
      KnowsLater(s.sent, s.c.attempts, s.c.calls, s.c.last, s.c.last + 1, s.nextCall);
      if s.alive && !s.c.locked { EvidentOpened(s.log, s.wire, s.c.attempts, s.c.last); }
    }
  }

  lemma OpenFailedKept(s: System)
    requires Inv(s)
    ensures Inv(s.(c := OpenFailed(s.c)))
  {
    hide Page, Stretch, Calls, LockedOk, WireNames, SealNames, Evident, OneName, Ledger, Knows;
    if s.c.current.Some? && s.c.current.value.opening.Some? {
      if s.alive && !s.c.locked { EvidentIdle(s.log, s.wire, s.c.attempts, s.c.last, OpeningAt(s.c.current)); }
    }
  }

  // ---- Posting ----

  lemma LedgerSends(log: seq<Entry>, sent: set<Post>, wire: set<Post>, outcome: map<nat, Outcome>, nextToken: nat, nextCall: nat, p: Post)
    requires Ledger(log, sent, wire, outcome, nextToken, nextCall)
    requires p.token == nextToken && -1 <= p.prev < |log| && p.call < nextCall
    ensures Ledger(log, sent + {p}, wire + {p}, outcome, nextToken + 1, nextCall) && nextToken !in outcome
  {
    hide Own;
  }

  lemma KnowsSends(sent: set<Post>, attempts: seq<Attempt>, calls: map<nat, Call>, last: int, nextCall: nat,
      p: Post, id: nat, k: Call, attempts': seq<Attempt>)
    requires Knows(sent, attempts, calls, last, nextCall) && id < nextCall && p.prev <= last
    requires k.Posting? && k.attempt == Attempt(p.prev + 1, p.token, p.from)
    requires attempts' == attempts || attempts' == attempts + [k.attempt]
    ensures Knows(sent + {p}, attempts', calls[id := k], last, nextCall)
  {
    assert forall a | SentAs(sent, a) :: SentAs(sent + {p}, a);
    assert p in sent + {p};
    assert SentAs(sent + {p}, k.attempt);
  }

  lemma CallsSends(calls: map<nat, Call>, log: seq<Entry>, sent: set<Post>, wire: set<Post>, outcome: map<nat, Outcome>, p: Post, k: Call)
    requires Calls(calls, log, sent, wire, outcome) && p.call in calls && calls[p.call].Sealing?
    requires k.Posting? && k.attempt.token == p.token && p.token !in outcome
    ensures Calls(calls[p.call := k], log, sent + {p}, wire + {p}, outcome)
  {
    var calls' := calls[p.call := k];
    forall id | id in calls' ensures CallOk(log, sent + {p}, wire + {p}, outcome, id, calls'[id]) {
      assert CallOk(log, sent, wire, outcome, id, calls[id]);
      assert forall q | MayCommit(sent + {p}, wire + {p}, outcome, q) && q.call == id :: q == p || MayCommit(sent, wire, outcome, q);
    }
    assert p in sent + {p};
    assert PostedBy(sent + {p}, p.token, p.call);
    forall id | id in calls && calls[id].Posting? ensures PostedBy(sent + {p}, calls[id].attempt.token, id) {
      assert PostedBy(sent, calls[id].attempt.token, id);
    }
  }

  lemma EvidentSends(log: seq<Entry>, wire: set<Post>, attempts: seq<Attempt>, last: int, opening: int, p: Post)
    requires Evident(log, wire, attempts, last, opening) && last < |log|
    ensures Evident(log, wire + {p}, if p.prev + 1 > last then attempts + [Attempt(p.prev + 1, p.token, p.from)] else attempts, last, opening)
  {
    var attempts' := if p.prev + 1 > last then attempts + [Attempt(p.prev + 1, p.token, p.from)] else attempts;
    forall k | Own(log, k) ensures Evidence(attempts', k, log[k].token, log[k].name) {
      assert Evidence(attempts, k, log[k].token, log[k].name);
    }
    forall q | q in wire + {p} && q.prev == |log| - 1 ensures Evidence(attempts', q.prev + 1, q.token, q.from) {
      assert q == p || Evidence(attempts, q.prev + 1, q.token, q.from);
    }
  }

  lemma PostKept(s: System, id: nat, p: Post, k: Call, attempts: seq<Attempt>)
    requires id in s.c.calls && s.c.calls[id].Sealing?
    requires p == Post(s.c.calls[id].prev, s.nextToken, s.c.calls[id].sender, id)
    requires k.Posting? && k.attempt == Attempt(p.prev + 1, p.token, p.from)
    requires attempts == if !s.c.locked && p.prev + 1 > s.c.last then s.c.attempts + [k.attempt] else s.c.attempts
    requires Inv(s)
    ensures Inv(s.(c := s.c.(calls := s.c.calls[id := k], attempts := attempts),
                   nextToken := s.nextToken + 1, sent := s.sent + {p}, wire := s.wire + {p}))
  {
    hide Page, Stretch, DeliveryOk, Calls, LockedOk, Evident, OneName, Ledger, Knows, NamedUpTo, SealNames, OpeningAt,
         SentAs;
    KnowsBounds(s, id, s.c.calls[id]);
    LedgerSends(s.log, s.sent, s.wire, s.outcome, s.nextToken, s.nextCall, p);
    KnowsSends(s.sent, s.c.attempts, s.c.calls, s.c.last, s.nextCall, p, id, k, attempts);
    CallsSends(s.c.calls, s.log, s.sent, s.wire, s.outcome, p, k);
    if s.alive {
      SealSet(s.log, s.c.calls, id, k);
      SealGives(s.log, s.c.calls, id);
      if !s.c.locked { EvidentSends(s.log, s.wire, s.c.attempts, s.c.last, OpeningAt(s.c.current), p); }
    }
  }

  lemma SealGives(log: seq<Entry>, calls: map<nat, Call>, id: nat)
    requires SealNames(log, calls) && id in calls && calls[id].Sealing?
    ensures NamedUpTo(log, calls[id].prev, calls[id].sender)
  {
    hide NamedUpTo;
  }

  lemma SealedKept(s: System, id: nat)
    requires Inv(s)
    ensures Inv(Apply(s, Sealed(id)))
  {
    hide Inv, CallOk;
    if id in s.c.calls && s.c.calls[id].Sealing? {
      var k := s.c.calls[id];
      if s.c.gone {
        IdleCall(s, id, Thrown);
        MoveKept(s, id, Thrown, if s.c.pending > 0 then s.c.pending - 1 else 0);
      } else if s.c.locked && k.sender != s.c.name {
        RetryKept(s, id, k.from, k.tries);
      } else {
        var a := Attempt(k.prev + 1, s.nextToken, k.sender);
        PostKept(s, id, Post(k.prev, s.nextToken, k.sender, id), Posting(k.from, k.tries, a),
          if !s.c.locked && a.pos > s.c.last then s.c.attempts + [a] else s.c.attempts);
      }
    }
  }

  // ---- Answers ----

  /** A posting call whose request is settled: at most that one could commit. */
  lemma PostingEnds(s: System, id: nat)
    requires IsPosting(s, id)
    requires Inv(s)
    ensures AtMostOne(s.sent, s.wire, s.outcome, id)
  {
    hide Flow, Knows, Names, PostedBy;
    assert CallOk(s.log, s.sent, s.wire, s.outcome, id, s.c.calls[id]);
  }

  /** A request that was taken and not committed leaves its call free of doubt. */
  lemma PostingFails(s: System, id: nat, a: Attempt, k: Call)
    requires PostingAs(s, id, a) && TurnedDown(s, a.token)
    requires k.Delivering? || k.Thrown?
    requires Inv(s)
    ensures CallOk(s.log, s.sent, s.wire, s.outcome, id, k)
  {
    hide Flow, Knows, Names, PostedBy;
    assert CallOk(s.log, s.sent, s.wire, s.outcome, id, s.c.calls[id]);
  }

  /** An accepted request is an own event under the name of its attempt. */
  lemma PostingCommitted(s: System, id: nat, a: Attempt) returns (k: int)
    requires PostingAs(s, id, a) && HasCommitted(s, a.token)
    requires Inv(s)
    ensures OwnAs(s.log, k, a.from)
    ensures CallOk(s.log, s.sent, s.wire, s.outcome, id, Returned)
  {
    hide Flow, Names;
    PostingEnds(s, id);
    assert SentAs(s.sent, a);
    var p :| p in s.sent && p.token == a.token && p.prev + 1 == a.pos && p.from == a.from;
    k := p.prev + 1;
    assert PostedBy(s.sent, a.token, id);
    assert s.log[k].call == Some(id);
  }

  lemma AcceptedKept(s: System, id: nat, a: Attempt)
    requires PostingAs(s, id, a) && Honest(s, a, Ok)
    requires Inv(s)
    ensures Inv(s.(c := TakeReply(s.c, id, Accepted)))
  {
    hide Inv, CallOk;
    var k := PostingCommitted(s, id, a);
    LockKept(s, a.from, k);
    MoveKept(s.(c := LockName(s.c, a.from)), id, Returned, if s.c.pending > 0 then s.c.pending - 1 else 0);
  }

  lemma UnclearKept(s: System, id: nat)
    requires IsPosting(s, id)
    requires Inv(s)
    ensures Inv(s.(c := Settle(s.c, id, Thrown)))
  {
    hide Inv, AtMostOne;
    PostingEnds(s, id);
    MoveKept(s, id, Thrown, if s.c.pending > 0 then s.c.pending - 1 else 0);
  }

  lemma EvidentWithout(log: seq<Entry>, wire: set<Post>, attempts: seq<Attempt>, last: int, opening: int, a: Attempt)
    requires Evident(log, wire, attempts, last, opening)
    requires forall k | Own(log, k) :: log[k].token != a.token
    requires forall p | p in wire :: p.token != a.token
    ensures Evident(log, wire, Without(attempts, a), last, opening)
  {
    forall k | Own(log, k) ensures Evidence(Without(attempts, a), k, log[k].token, log[k].name) {
      assert Evidence(attempts, k, log[k].token, log[k].name);
    }
    forall p | p in wire && p.prev == |log| - 1 ensures Evidence(Without(attempts, a), p.prev + 1, p.token, p.from) {
      assert Evidence(attempts, p.prev + 1, p.token, p.from);
    }
  }

  /** Dropping the evidence of a request that can no longer commit. */
  lemma WithoutKept(s: System, a: Attempt)
    requires s.alive ==> TurnedDown(s, a.token)
    requires Inv(s)
    ensures Inv(s.(c := s.c.(attempts := Without(s.c.attempts, a))))
  {
    hide Page, Stretch, DeliveryOk, Calls, LockedOk, WireNames, SealNames, Evident, OneName, SentAs, Without;
    if s.alive && !s.c.locked {
      EvidentWithout(s.log, s.wire, s.c.attempts, s.c.last, OpeningAt(s.c.current), a);
    }
  }

  lemma RejectedKept(s: System, id: nat, a: Attempt)
    requires PostingAs(s, id, a) && (s.alive ==> TurnedDown(s, a.token))
    requires Inv(s)
    ensures Inv(s.(c := TakeReply(s.c, id, Rejected)))
  {
    hide Inv;
    WithoutKept(s, a);
    UnclearKept(s.(c := s.c.(attempts := Without(s.c.attempts, a))), id);
  }

  lemma ConflictKept(s: System, id: nat, a: Attempt, upto: nat)
    requires PostingAs(s, id, a) && Honest(s, a, ConflictTo(upto))
    requires Inv(s)
    ensures Inv(s.(c := TakeReply(s.c, id, Conflict(Page(s.log, a.pos, upto)))))
  {
    hide Inv, CallOk, Page;
    var k := s.c.calls[id];
    WithoutKept(s, a);
    var s1 := s.(c := s.c.(attempts := Without(s.c.attempts, a)));
    assert a.pos <= s.c.last + 1 by { assert Inv(s); KnowsBounds(s, id, s.c.calls[id]); }
    EnqueueKept(s1, a.pos, upto);
    var s2 := s1.(c := Enqueue(s1.c, Page(s.log, a.pos, upto)));
    var k' := Delivering(k.from, k.tries, s2.c.enqueued);
    PostingFails(s2, id, a, k');
    MoveKept(s2, id, k', s2.c.pending);
    assert s2.c.(pending := s2.c.pending, calls := s2.c.calls[id := k']) == s2.c.(calls := s2.c.calls[id := k']);
  }

  lemma AnsweredKept(s: System, id: nat, answer: Answer)
    requires Inv(s)
    ensures Inv(Apply(s, Answered(id, answer)))
  {
    hide Inv, Page;
    if id in s.c.calls && s.c.calls[id].Posting? && Honest(s, s.c.calls[id].attempt, answer) {
      var a := s.c.calls[id].attempt;
      match answer
      case Ok => AcceptedKept(s, id, a);
      case ConflictTo(upto) => ConflictKept(s, id, a, upto);
      case No4xx => RejectedKept(s, id, a);
      case No503 => RejectedKept(s, id, a);
      case Missing404 => RejectedKept(s, id, a);
      case Unclear => UnclearKept(s, id);
    }
  }

  // ---- The server ----

  lemma LedgerDeclines(log: seq<Entry>, sent: set<Post>, wire: set<Post>, outcome: map<nat, Outcome>, nextToken: nat, nextCall: nat, p: Post, o: Outcome)
    requires Ledger(log, sent, wire, outcome, nextToken, nextCall) && p in wire && o != Committed
    ensures Ledger(log, sent, wire - {p}, outcome[p.token := o], nextToken, nextCall)
  {
  }

  lemma NamesDecline(log: seq<Entry>, wire: set<Post>, attempts: seq<Attempt>, last: int, opening: int, p: Post)
    ensures WireNames(log, wire) ==> WireNames(log, wire - {p})
    ensures Evident(log, wire, attempts, last, opening) ==> Evident(log, wire - {p}, attempts, last, opening)
  {
    hide NamedUpTo, Evidence;
  }

  lemma CallsDecline(calls: map<nat, Call>, log: seq<Entry>, sent: set<Post>, wire: set<Post>, outcome: map<nat, Outcome>, p: Post, o: Outcome)
    requires Calls(calls, log, sent, wire, outcome) && p in wire && o != Committed
    ensures Calls(calls, log, sent, wire - {p}, outcome[p.token := o])
  {
    hide PostedBy;
    assert forall q | MayCommit(sent, wire - {p}, outcome[p.token := o], q) :: MayCommit(sent, wire, outcome, q);
    forall id | id in calls ensures CallOk(log, sent, wire - {p}, outcome[p.token := o], id, calls[id]) {
      assert CallOk(log, sent, wire, outcome, id, calls[id]);
    }
  }

  lemma DeclineKept(s: System, p: Post, o: Outcome)
    requires p in s.wire && o != Committed
    requires Inv(s)
    ensures Inv(s.(wire := s.wire - {p}, outcome := s.outcome[p.token := o]))
  {
    hide Flow, Ledger, Knows, Calls, WireNames, SealNames, LockedOk, OneName, Evident;
    LedgerDeclines(s.log, s.sent, s.wire, s.outcome, s.nextToken, s.nextCall, p, o);
    NamesDecline(s.log, s.wire, s.c.attempts, s.c.last, OpeningAt(s.c.current), p);
    CallsDecline(s.c.calls, s.log, s.sent, s.wire, s.outcome, p, o);
  }

  lemma LedgerCommits(log: seq<Entry>, sent: set<Post>, wire: set<Post>, outcome: map<nat, Outcome>, nextToken: nat, nextCall: nat, p: Post)
    requires Ledger(log, sent, wire, outcome, nextToken, nextCall) && p in wire && p.prev == |log| - 1
    ensures Ledger(log + [Entry(p.token, p.from, Some(p.call))], sent, wire - {p}, outcome[p.token := Committed], nextToken, nextCall)
  {
    var log' := log + [Entry(p.token, p.from, Some(p.call))];
    assert Post(|log| - 1, p.token, p.from, p.call) == p;
    assert forall k | Own(log', k) :: k == |log| || Own(log, k);
  }

  lemma CallsCommit(calls: map<nat, Call>, log: seq<Entry>, sent: set<Post>, wire: set<Post>, outcome: map<nat, Outcome>, p: Post)
    requires Calls(calls, log, sent, wire, outcome) && p in wire && p in sent
    requires forall q | q in sent && q.token == p.token :: q == p
    ensures Calls(calls, log + [Entry(p.token, p.from, Some(p.call))], sent, wire - {p}, outcome[p.token := Committed])
  {
    hide PostedBy;
    var log' := log + [Entry(p.token, p.from, Some(p.call))];
    assert forall q | MayCommit(sent, wire - {p}, outcome[p.token := Committed], q) :: MayCommit(sent, wire, outcome, q);
    forall id | id in calls ensures CallOk(log', sent, wire - {p}, outcome[p.token := Committed], id, calls[id]) {
      assert CallOk(log, sent, wire, outcome, id, calls[id]);
      assert forall i | 0 <= i < |log| :: log'[i] == log[i];
    }
  }

  lemma NamesCommit(log: seq<Entry>, locked: bool, name: string, wire: set<Post>, p: Post)
    requires OneName(log) && LockedOk(log, locked, name) && WireNames(log, wire) && p in wire && p.prev == |log| - 1
    requires forall q | q in wire :: q.prev < |log|
    ensures var log' := log + [Entry(p.token, p.from, Some(p.call))];
      OneName(log') && LockedOk(log', locked, name) && WireNames(log', wire - {p})
  {
    var log' := log + [Entry(p.token, p.from, Some(p.call))];
    assert NamedUpTo(log, p.prev, p.from);
    forall q | q in wire - {p} ensures NamedUpTo(log', q.prev, q.from) {
      assert NamedUpTo(log, q.prev, q.from);
      assert forall i | Own(log', i) && i <= q.prev :: Own(log, i);
    }
    assert forall i | Own(log', i) :: log'[i].name == p.from by {
      assert forall i | Own(log', i) :: i == |log| || Own(log, i);
    }
    if locked {
      var k :| Own(log, k);
      assert Own(log', k);
    }
  }

  lemma SealGrows(log: seq<Entry>, calls: map<nat, Call>, e: Entry)
    requires SealNames(log, calls) && forall id | id in calls && calls[id].Sealing? :: calls[id].prev < |log|
    ensures SealNames(log + [e], calls)
  {
    forall id | id in calls && calls[id].Sealing? ensures NamedUpTo(log + [e], calls[id].prev, calls[id].sender) {
      assert NamedUpTo(log, calls[id].prev, calls[id].sender);
      assert forall i | Own(log + [e], i) && i <= calls[id].prev :: Own(log, i);
    }
  }

  lemma EvidentCommits(log: seq<Entry>, wire: set<Post>, attempts: seq<Attempt>, last: int, opening: int, p: Post)
    requires Evident(log, wire, attempts, last, opening) && p in wire && p.prev == |log| - 1
    requires forall q | q in wire :: q.prev < |log|
    requires last < |log| && opening < |log|
    ensures Evident(log + [Entry(p.token, p.from, Some(p.call))], wire - {p}, attempts, last, opening)
  {
    var log' := log + [Entry(p.token, p.from, Some(p.call))];
    assert Evidence(attempts, p.prev + 1, p.token, p.from);
    forall k | Own(log', k) ensures last < k && Evidence(attempts, k, log'[k].token, log'[k].name) {
      assert k == |log| || Own(log, k);
    }
  }

  lemma OpeningInLog(c: Client, log: seq<Entry>)
    requires Flow(c, log)
    ensures c.last < |log| && OpeningAt(c.current) < |log|
  {
    hide Stretch, Page;
  }

  lemma SentBounds(s: System)
    requires Ledger(s.log, s.sent, s.wire, s.outcome, s.nextToken, s.nextCall)
    ensures forall p | p in s.wire :: p in s.sent && p.prev < |s.log|
    ensures forall p, q | p in s.wire && q in s.sent && q.token == p.token :: q == p
  {
  }

  lemma CommitKept(s: System, p: Post)
    requires s.alive && p in s.wire && p.prev == |s.log| - 1
    requires Inv(s)
    ensures Inv(s.(wire := s.wire - {p}, outcome := s.outcome[p.token := Committed],
                   log := s.log + [Entry(p.token, p.from, Some(p.call))]))
  {
    hide Flow, Ledger, Knows, Calls, WireNames, SealNames, LockedOk, OneName, Evident, OpeningAt, SentAs;
    var e := Entry(p.token, p.from, Some(p.call));
    SentBounds(s);
    FlowGrows(s.c, s.log, e);
    LedgerCommits(s.log, s.sent, s.wire, s.outcome, s.nextToken, s.nextCall, p);
    CallsCommit(s.c.calls, s.log, s.sent, s.wire, s.outcome, p);
    NamesCommit(s.log, s.c.locked, s.c.name, s.wire, p);
    OpeningInLog(s.c, s.log);
    forall id | id in s.c.calls && s.c.calls[id].Sealing? ensures s.c.calls[id].prev < |s.log| { KnowsBounds(s, id, s.c.calls[id]); }
    SealGrows(s.log, s.c.calls, e);
    if !s.c.locked { EvidentCommits(s.log, s.wire, s.c.attempts, s.c.last, OpeningAt(s.c.current), p); }
  }

  lemma ServerKept(s: System, p: Post, refuse: bool)
    requires Inv(s)
    ensures Inv(Apply(s, ServerTakes(p, refuse)))
  {
    hide Inv, BeginSeal, CallAppend, Discard, Enqueue, ObserveNext, OpenFailed, Opened, PageDelivered, SendPost,
         SetName, TakePage;
    if p in s.wire {
      if refuse || !s.alive { DeclineKept(s, p, Refused); }
      else if p.prev != |s.log| - 1 { DeclineKept(s, p, Behind); }
      else { CommitKept(s, p); }
    }
  }

  // ---- Others ----

  lemma OtherLedger(log: seq<Entry>, sent: set<Post>, wire: set<Post>, outcome: map<nat, Outcome>, nextToken: nat, nextCall: nat, name: string)
    requires Ledger(log, sent, wire, outcome, nextToken, nextCall)
    ensures Ledger(log + [Entry(nextToken, name, None)], sent, wire, outcome, nextToken + 1, nextCall)
  {
    var log' := log + [Entry(nextToken, name, None)];
    assert forall k | Own(log', k) :: Own(log, k);
  }

  lemma OtherNames(log: seq<Entry>, locked: bool, name: string, wire: set<Post>, e: Entry)
    requires e.call.None? && forall q | q in wire :: q.prev < |log|
    ensures OneName(log) ==> OneName(log + [e])
    ensures LockedOk(log, locked, name) ==> LockedOk(log + [e], locked, name)
    ensures WireNames(log, wire) ==> WireNames(log + [e], wire)
  {
    assert forall k | Own(log + [e], k) :: Own(log, k);
    if LockedOk(log, locked, name) && locked {
      var k :| Own(log, k);
      assert Own(log + [e], k);
    }
    if WireNames(log, wire) {
      forall q | q in wire ensures NamedUpTo(log + [e], q.prev, q.from) { assert NamedUpTo(log, q.prev, q.from); }
    }
  }

  lemma OtherEvident(log: seq<Entry>, wire: set<Post>, attempts: seq<Attempt>, last: int, opening: int, e: Entry)
    requires Evident(log, wire, attempts, last, opening) && e.call.None?
    requires forall q | q in wire :: q.prev < |log|
    ensures Evident(log + [e], wire, attempts, last, opening)
  {
    hide Evidence;
    assert forall k | Own(log + [e], k) :: Own(log, k);
  }

  lemma OtherCalls(calls: map<nat, Call>, log: seq<Entry>, sent: set<Post>, wire: set<Post>, outcome: map<nat, Outcome>, e: Entry)
    requires Calls(calls, log, sent, wire, outcome)
    ensures Calls(calls, log + [e], sent, wire, outcome)
  {
    hide PostedBy, MayCommit;
    forall id | id in calls ensures CallOk(log + [e], sent, wire, outcome, id, calls[id]) {
      assert CallOk(log, sent, wire, outcome, id, calls[id]);
      assert forall i | 0 <= i < |log| :: (log + [e])[i] == log[i];
    }
  }

  lemma OtherKept(s: System, name: string)
    requires s.alive
    requires Inv(s)
    ensures Inv(Apply(s, OtherWrites(name)))
  {
    hide Flow, Ledger, Knows, Calls, WireNames, SealNames, LockedOk, OneName, Evident, OpeningAt, SentAs;
    var e := Entry(s.nextToken, name, None);
    SentBounds(s);
    FlowGrows(s.c, s.log, e);
    OtherLedger(s.log, s.sent, s.wire, s.outcome, s.nextToken, s.nextCall, name);
    OtherCalls(s.c.calls, s.log, s.sent, s.wire, s.outcome, e);
    OtherNames(s.log, s.c.locked, s.c.name, s.wire, e);
    OpeningInLog(s.c, s.log);
    forall id | id in s.c.calls && s.c.calls[id].Sealing? ensures s.c.calls[id].prev < |s.log| { KnowsBounds(s, id, s.c.calls[id]); }
    SealGrows(s.log, s.c.calls, e);
    if !s.c.locked { OtherEvident(s.log, s.wire, s.c.attempts, s.c.last, OpeningAt(s.c.current), e); }
  }

  lemma GoneKept(s: System)
    requires Inv(s)
    ensures Inv(s.(alive := false))
    ensures !s.alive ==> Inv(s.(c := Discard(s.c)))
  {
    hide Stretch, Page, DeliveryOk, Ledger, Calls, WireNames, SealNames, LockedOk, OneName, Evident, SentAs;
  }

  /** Whatever happens next, the invariant goes on holding. */
  lemma EventKept(s: System, ev: Event)
    requires Inv(s)
    ensures Inv(Apply(s, ev))
  {
    hide Inv, BeginSeal, Discard, Enqueue, ObserveNext, OpenFailed, Opened, Page, Settle, Retry, CallAppend, SendPost,
         TakeReply, Honest;
    match ev
    case Rename(name) => RenameKept(s, name);
    case Append(from) => AppendKept(s, from);
    case StartSeal(id) => StartSealKept(s, id);
    case Sealed(id) => SealedKept(s, id);
    case Answered(id, answer) => AnsweredKept(s, id, answer);
    case AfterPage(id, threw) => AfterPageKept(s, id, threw);
    case Polled(since, upto) =>
      if -1 <= since <= s.c.last && since + 1 <= upto <= |s.log| { EnqueueKept(s, since + 1, upto); }
    case NextPage => NextPageKept(s);
    case NextEvent => NextEventKept(s);
    case EventOpened => OpenedKept(s);
    case EventFailed => OpenFailedKept(s);
    case ServerTakes(post, refuse) => ServerKept(s, post, refuse);
    case OtherWrites(name) => if s.alive { OtherKept(s, name); }
    case ChannelDeleted => GoneKept(s);
    case FoundGone => if !s.alive { GoneKept(s); }
  }

  lemma {:induction false} RunKept(s: System, evs: seq<Event>)
    requires Inv(s)
    ensures Inv(Run(s, evs))
    decreases |evs|
  {
    hide Inv, Apply;
    if evs != [] {
      EventKept(s, evs[0]);
      RunKept(Apply(s, evs[0]), evs[1..]);
    }
  }

  lemma InitHolds(s: System)
    requires Init(s)
    ensures Inv(s)
  {
    assert forall k :: !Own(s.log, k);
  }
}
