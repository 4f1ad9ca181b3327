/** The session as the object a page owns: its closure variables updated in place,
    one method for each stretch of code between awaits. A ghost field holds the
    server and the requests on their way; `Valid()` says that session and server
    together satisfy what holds in every run, one name for all own events included. */
module BrowserSessions {
  import opened Options
  import opened Session
  import Protocol = SessionProtocol
  import SessionProofs
  import SessionSteps

  class BrowserSession {
    // identity
    var name: string
    var locked: bool
    var pending: nat
    var attempts: seq<Attempt>
    // deliveries
    var last: int
    var queue: seq<seq<Envelope>>
    var current: Option<Delivery>
    var enqueued: nat
    var delivered: nat
    var presented: seq<Envelope>
    // calls of append in progress, and whether the channel was found gone
    var calls: map<nat, Call>
    var gone: bool
    // the session, the server and the requests between them
    ghost var world: Protocol.System

    ghost function View(): Client
      reads this
    {
      Client(name, locked, pending, attempts, last, queue, current, enqueued, delivered, gone, calls, presented)
    }

    ghost predicate Valid()
      reads this
    {
      world.c == View() && SessionProofs.Inv(world)
    }

    constructor (ghost start: Protocol.System)
      requires Protocol.Init(start) && start.c.name == "human"
      ensures Valid() && world == start
    {
      name, locked, pending, attempts := "human", false, 0, [];
      last, queue, current, enqueued, delivered, presented := -1, [], None, 0, 0, [];
      calls, gone := map[], false;
      world := start;
      SessionSteps.InitHolds(start);
    }

    /** What the server, other writers and the network do between two of its steps. */
    ghost method Meanwhile(ev: Protocol.Event)
      requires Valid() && (ev.ServerTakes? || ev.OtherWrites? || ev.ChannelDeleted?)
      modifies this`world
      ensures Valid() && world == Protocol.Apply(old(world), ev)
    {
      hide SessionProofs.Inv;
      SessionSteps.EventKept(world, ev);
      world := Protocol.Apply(world, ev);
    }

    method SetName(to: string) returns (ok: bool)
      requires Valid()
      modifies this`name, this`world
      ensures View() == Session.SetName(old(View()), to)
      ensures ok ==> name == to
      ensures Valid() && world == Protocol.Apply(old(world), Protocol.Rename(to))
    {
      hide SessionProofs.Inv;
      SessionSteps.EventKept(world, Protocol.Rename(to));
      world := Protocol.Apply(world, Protocol.Rename(to));
      if locked || pending > 0 || gone { return false; }
      name := to;
      return true;
    }

    method DiscardPostEvidence()
      modifies this`attempts
      ensures attempts == []
    {
      attempts := [];
    }

    method LockName(from: string)
      modifies this`locked, this`name, this`attempts
      ensures View() == Session.LockName(old(View()), from)
    {
      if locked { return; }
      locked := true;
      name := from;
      DiscardPostEvidence();
    }

    /** The first attempt that matches the event: the array search of `observe`. */
    method FindOwn(e: Envelope) returns (own: Option<Attempt>)
      ensures own == Find(attempts, e)
    {
      var i := 0;
      while i < |attempts|
        invariant 0 <= i <= |attempts| && Find(attempts, e) == Find(attempts[i..], e)
      {
        if Matches(attempts[i], e) { return Some(attempts[i]); }
        assert attempts[i..][1..] == attempts[i + 1..];
        i := i + 1;
      }
      return None;
    }

    method Observe(e: Envelope)
      modifies this`locked, this`name, this`attempts
      ensures View() == Session.Observe(old(View()), e)
    {
      var own := FindOwn(e);
      if own.Some? { LockName(own.value.from); }
      attempts := After(attempts, e.pos);
    }

    method Deliver(page: seq<Envelope>)
      modifies this`queue, this`enqueued
      ensures View() == Enqueue(old(View()), page)
    {
      queue, enqueued := queue + [page], enqueued + 1;
    }

    /** A poll made at an earlier cursor is answered. */
    method Polled(page: seq<Envelope>, since: int, upto: nat)
      requires Valid() && -1 <= since <= last && since + 1 <= upto <= |world.log|
      requires page == Protocol.Page(world.log, since + 1, upto)
      modifies this`queue, this`enqueued, this`world
      ensures View() == Enqueue(old(View()), page)
      ensures Valid() && world == Protocol.Apply(old(world), Protocol.Polled(since, upto))
    {
      hide SessionProofs.Inv;
      SessionSteps.EventKept(world, Protocol.Polled(since, upto));
      world := Protocol.Apply(world, Protocol.Polled(since, upto));
      Deliver(page);
    }

    method StartDelivery()
      requires Valid()
      modifies this`queue, this`current, this`world
      ensures View() == TakePage(old(View()))
      ensures Valid() && world == Protocol.Apply(old(world), Protocol.NextPage)
    {
      hide SessionProofs.Inv;
      SessionSteps.EventKept(world, Protocol.NextPage);
      world := Protocol.Apply(world, Protocol.NextPage);
      if current.None? && queue != [] {
        current, queue := Some(Delivery(None, queue[0])), queue[1..];
      }
    }

    method StepDelivery()
      requires Valid()
      modifies this`locked, this`name, this`attempts, this`current, this`delivered, this`world
      ensures View() == ObserveNext(old(View()))
      ensures Valid() && world == Protocol.Apply(old(world), Protocol.NextEvent)
    {
      hide SessionProofs.Inv;
      SessionSteps.EventKept(world, Protocol.NextEvent);
      world := Protocol.Apply(world, Protocol.NextEvent);
      if current.None? || current.value.opening.Some? { return; }
      if current.value.rest == [] {
        current, delivered := None, delivered + 1;
        return;
      }
      var e, rest := current.value.rest[0], current.value.rest[1..];
      Observe(e);
      current := Some(Delivery(if e.pos <= last then None else Some(e), rest));
    }

    method OpenedEvent()
      requires Valid()
      modifies this`last, this`presented, this`current, this`world
      ensures View() == Opened(old(View()))
      ensures Valid() && world == Protocol.Apply(old(world), Protocol.EventOpened)
    {
      hide SessionProofs.Inv;
      SessionSteps.EventKept(world, Protocol.EventOpened);
      world := Protocol.Apply(world, Protocol.EventOpened);
      if current.None? || current.value.opening.None? { return; }
      var e := current.value.opening.value;
      last := e.pos;
      presented := presented + [e];
      current := Some(Delivery(None, current.value.rest));
    }

    method OpenThrew()
      requires Valid()
      modifies this`current, this`delivered, this`world
      ensures View() == OpenFailed(old(View()))
      ensures Valid() && world == Protocol.Apply(old(world), Protocol.EventFailed)
    {
      hide SessionProofs.Inv;
      SessionSteps.EventKept(world, Protocol.EventFailed);
      world := Protocol.Apply(world, Protocol.EventFailed);
      if current.None? || current.value.opening.None? { return; }
      current, delivered := None, delivered + 1;
    }

    method End(id: nat, how: Call)
      modifies this`pending, this`calls
      ensures View() == Settle(old(View()), id, how)
    {
      if pending > 0 { pending := pending - 1; }
      calls := calls[id := how];
    }

    method TryAgain(id: nat, from: string, tries: nat)
      modifies this`pending, this`calls
      ensures View() == Retry(old(View()), id, from, tries)
    {
      if tries + 1 >= TRIES { End(id, Thrown); }
      else { calls := calls[id := Queued(from, tries + 1, enqueued)]; }
    }

    method Append(id: nat, from: string)
      requires Valid() && id == world.nextCall
      modifies this`pending, this`calls, this`world
      ensures View() == CallAppend(old(View()), id, from)
      ensures Valid() && world == Protocol.Apply(old(world), Protocol.Append(from))
    {
      hide SessionProofs.Inv;
      SessionSteps.EventKept(world, Protocol.Append(from));
      world := Protocol.Apply(world, Protocol.Append(from));
      if id in calls { return; }
      pending := pending + 1;
      calls := calls[id := Queued(from, 0, enqueued)];
    }

    /** The attempt loop from `await queue` to `await seal`. */
    method StartSeal(id: nat)
      requires Valid()
      modifies this`pending, this`calls, this`world
      ensures View() == BeginSeal(old(View()), id)
      ensures Valid() && world == Protocol.Apply(old(world), Protocol.StartSeal(id))
    {
      hide SessionProofs.Inv;
      SessionSteps.EventKept(world, Protocol.StartSeal(id));
      world := Protocol.Apply(world, Protocol.StartSeal(id));
      if id !in calls || !calls[id].Queued? || delivered < calls[id].until { return; }
      var k := calls[id];
      if gone { End(id, Thrown); return; }
      var prev, from := last, if locked then name else k.from;
      calls := calls[id := Sealing(k.from, k.tries, prev, from)];
    }

    /** From the sealed blob to `await post`. */
    method Post(id: nat, token: nat)
      requires Valid() && token == world.nextToken
      modifies this`pending, this`calls, this`attempts, this`world
      ensures View() == SendPost(old(View()), id, token)
      ensures Valid() && world == Protocol.Apply(old(world), Protocol.Sealed(id))
    {
      hide SessionProofs.Inv;
      SessionSteps.EventKept(world, Protocol.Sealed(id));
      world := Protocol.Apply(world, Protocol.Sealed(id));
      if id !in calls || !calls[id].Sealing? { return; }
      var k := calls[id];
      if gone { End(id, Thrown); return; }
      if locked && k.sender != name { TryAgain(id, k.from, k.tries); return; }
      var attempt := Attempt(k.prev + 1, token, k.sender);
      if !locked && attempt.pos > last { attempts := attempts + [attempt]; }
      calls := calls[id := Posting(k.from, k.tries, attempt)];
    }

    /** From the answer to a post to the end of the call or its next await. */
    method Answered(id: nat, r: Reply, ghost answer: Protocol.Answer)
      requires Valid()
      requires id in calls && calls[id].Posting? ==>
        Protocol.Honest(world, calls[id].attempt, answer) && r == Protocol.ReplyOf(world, calls[id].attempt, answer)
      modifies this`pending, this`calls, this`attempts, this`locked, this`name, this`queue, this`enqueued, this`world
      ensures View() == TakeReply(old(View()), id, r)
      ensures Valid() && world == Protocol.Apply(old(world), Protocol.Answered(id, answer))
    {
      hide SessionProofs.Inv;
      SessionSteps.EventKept(world, Protocol.Answered(id, answer));
      world := Protocol.Apply(world, Protocol.Answered(id, answer));
      if id !in calls || !calls[id].Posting? { return; }
      var k := calls[id];
      if r.Accepted? {
        LockName(k.attempt.from);
        End(id, Returned);
        return;
      }
      if r.Conflict? || r.Rejected? || r.Restarting? { attempts := Without(attempts, k.attempt); }
      if r.Conflict? {
        Deliver(r.page);
        calls := calls[id := Delivering(k.from, k.tries, enqueued)];
        return;
      }
      End(id, Thrown);
    }

    method PageDone(id: nat, threw: bool)
      requires Valid()
      modifies this`pending, this`calls, this`world
      ensures View() == PageDelivered(old(View()), id, threw)
      ensures Valid() && world == Protocol.Apply(old(world), Protocol.AfterPage(id, threw))
    {
      hide SessionProofs.Inv;
      SessionSteps.EventKept(world, Protocol.AfterPage(id, threw));
      world := Protocol.Apply(world, Protocol.AfterPage(id, threw));
      if id !in calls || !calls[id].Delivering? || delivered < calls[id].until { return; }
      if threw { End(id, Thrown); } else { TryAgain(id, calls[id].from, calls[id].tries); }
    }

    method ChannelGone()
      requires Valid() && !world.alive
      modifies this`gone, this`attempts, this`world
      ensures View() == Discard(old(View()))
      ensures Valid() && world == Protocol.Apply(old(world), Protocol.FoundGone)
    {
      hide SessionProofs.Inv;
      SessionSteps.EventKept(world, Protocol.FoundGone);
      world := Protocol.Apply(world, Protocol.FoundGone);
      gone := true;
      DiscardPostEvidence();
    }
  }
}
