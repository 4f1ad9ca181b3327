/** No interleaving loses a wakeup, and when the waiter map names a missing channel. */
module LongPollResults {
  import opened LongPoll

  /** In every interleaving, a poll asleep while a newer event exists, or while its
      channel is gone or was replaced, has been woken or has a notify coming; and
      that notify wakes it. */
  lemma NoLostWakeup(w: World, evs: seq<Event>, pid: nat)
    requires pid in Run(w, evs).polls && Run(w, evs).polls[pid].stage.Asleep?
    requires Init(w)
    ensures var r, p := Run(w, evs), Run(w, evs).polls[pid];
      && (p.id !in r.channels || r.channels[p.id].generation != p.stage.generation || r.channels[p.id].events - 1 > p.since ==>
            p.stage.ch in r.closed || p.id in r.notifying)
      && (p.id in r.notifying ==> p.stage.ch in Notify(r, p.id).closed)
  {
    hide Init;
    InitHolds(w);
    RunKept(w, evs);
    var r := Run(w, evs);
    assert SubscribedOk(r.waiters, r.closed, r.polls[pid]) && SleepOk(r.channels, r.closed, r.notifying, r.polls[pid]);
  }

  /** Nothing in flight: no notify still to be made and no poll between its
      subscription and the end of its read. */
  ghost predicate Quiet(w: World) {
    w.notifying == multiset{} && forall pid | pid in w.polls :: !w.polls[pid].stage.Subscribed?
  }

  /** A read fails in storage although its channel is gone, and the poll's own
      notification channel is still open. */
  ghost predicate LeavesEntry(w: World, ev: Event, id: Id) {
    && ev.Reads? && ev.fails && ev.pid in w.polls && w.polls[ev.pid].id == id && w.polls[ev.pid].stage.Subscribed?
    && id !in w.channels && w.polls[ev.pid].stage.ch !in w.closed
  }

  /** The channel id is notified, or its channel created again. */
  ghost predicate Clears(w: World, ev: Event, id: Id) {
    (ev == Notifies(id) && id in w.notifying) || (ev == Creates(id) && id !in w.channels)
  }

  /** Such a read occurs at some point of a run, and nothing clears the id later. */
  ghost predicate LeftBehind(w: World, evs: seq<Event>, id: Id) {
    exists k :: 0 <= k < |evs| && LeavesEntry(Run(w, evs[..k]), evs[k], id)
      && forall m :: k < m < |evs| ==> !Clears(Run(w, evs[..m]), evs[m], id)
  }

  lemma {:induction false} RunEnds(w: World, evs: seq<Event>, ev: Event)
    ensures Run(w, evs + [ev]) == Apply(Run(w, evs), ev)
    decreases |evs|
  {
    hide Apply;
    if evs == [] {
      assert evs + [ev] == [ev];
      assert Run(Apply(w, ev), []) == Apply(w, ev);
    } else {
      assert (evs + [ev])[1..] == evs[1..] + [ev];
      RunEnds(Apply(w, evs[0]), evs[1..], ev);
    }
  }

  lemma LeakStep(w: World, ev: Event, id: Id)
    requires Inv(w)
    ensures id in Apply(w, ev).leaked <==> LeavesEntry(w, ev, id) || (id in w.leaked && !Clears(w, ev, id))
  {
    hide Apply, Inv;
    if ev.Reads? {
      ReadLeaks(w, ev, id);
    } else {
      OtherLeaks(w, ev, id);
    }
  }

  lemma ReadLeaks(w: World, ev: Event, id: Id)
    requires ev.Reads?
    requires Inv(w)
    ensures id in Apply(w, ev).leaked <==> LeavesEntry(w, ev, id) || id in w.leaked
  {
    if ev.pid in w.polls { assert SubscribedOk(w.waiters, w.closed, w.polls[ev.pid]); }
  }

  lemma OtherLeaks(w: World, ev: Event, id: Id)
    requires !ev.Reads?
    ensures id in Apply(w, ev).leaked <==> id in w.leaked && !Clears(w, ev, id)
  {
  }

  lemma LeftBehindEnds(w: World, evs: seq<Event>, ev: Event, id: Id)
    ensures LeftBehind(w, evs + [ev], id) <==>
      LeavesEntry(Run(w, evs), ev, id) || (LeftBehind(w, evs, id) && !Clears(Run(w, evs), ev, id))
  {
    hide LeavesEntry, Clears, Run;
    var all, n := evs + [ev], |evs|;
    assert forall k | 0 <= k <= n :: all[..k] == evs[..k];
    assert all[..n] == evs && all[n] == ev;
    if LeftBehind(w, all, id) {
      var k :| 0 <= k < |all| && LeavesEntry(Run(w, all[..k]), all[k], id)
        && forall m :: k < m < |all| ==> !Clears(Run(w, all[..m]), all[m], id);
      if k < n {
        assert !Clears(Run(w, all[..n]), all[n], id);
        assert LeavesEntry(Run(w, evs[..k]), evs[k], id);
        forall m | k < m < |evs| ensures !Clears(Run(w, evs[..m]), evs[m], id) {
          assert !Clears(Run(w, all[..m]), all[m], id);
        }
      }
    }
    if LeavesEntry(Run(w, evs), ev, id) {
      assert LeavesEntry(Run(w, all[..n]), all[n], id);
    } else if LeftBehind(w, evs, id) && !Clears(Run(w, evs), ev, id) {
      var k :| 0 <= k < |evs| && LeavesEntry(Run(w, evs[..k]), evs[k], id)
        && forall m :: k < m < |evs| ==> !Clears(Run(w, evs[..m]), evs[m], id);
      assert LeavesEntry(Run(w, all[..k]), all[k], id);
      forall m | k < m < |all| ensures !Clears(Run(w, all[..m]), all[m], id) {
        if m < n { assert !Clears(Run(w, evs[..m]), evs[m], id); }
      }
    }
  }

  lemma {:induction false} LeakedIsLeftBehind(w: World, evs: seq<Event>, id: Id)
    requires Init(w)
    ensures id in Run(w, evs).leaked <==> LeftBehind(w, evs, id)
    decreases |evs|
  {
    hide LeftBehind, Apply, LeavesEntry, Clears;
    if evs == [] {
      NothingLeft(w, id);
    } else {
      var init, ev := evs[..|evs| - 1], evs[|evs| - 1];
      assert evs == init + [ev];
      InitHolds(w);
      RunKept(w, init);
      RunEnds(w, init, ev);
      LeakedIsLeftBehind(w, init, id);
      LeftBehindEnds(w, init, ev, id);
      LeakStep(Run(w, init), ev, id);
    }
  }

  lemma NothingLeft(w: World, id: Id)
    requires Init(w)
    ensures !LeftBehind(w, [], id)
  {
  }

  /** With nothing in flight the waiter map names a channel that is gone if and only
      if a read of it failed in storage while its poll's notification channel was
      open, and its id was neither notified nor created since. */
  lemma WaitersNameExistingChannels(w: World, evs: seq<Event>, id: Id)
    requires Quiet(Run(w, evs))
    requires Init(w)
    ensures id in Run(w, evs).waiters && id !in Run(w, evs).channels <==> LeftBehind(w, evs, id)
  {
    hide LeftBehind;
    InitHolds(w);
    RunKept(w, evs);
    LeakedIsLeftBehind(w, evs, id);
    var r := Run(w, evs);
    if id in r.waiters { assert WaiterOk(r, id); }
  }

  /** Without storage errors it always names existing channels only. */
  lemma NoErrorNoLeak(w: World, evs: seq<Event>, id: Id)
    requires Init(w) && Quiet(Run(w, evs)) && forall ev | ev in evs :: !(ev.Reads? && ev.fails)
    ensures id in Run(w, evs).waiters ==> id in Run(w, evs).channels
  {
    WaitersNameExistingChannels(w, evs, id);
    assert forall k | 0 <= k < |evs| :: evs[k] in evs;
  }

  lemma DeletedAndNotified(w: World)
    requires w.channels == map[]
    requires Init(w)
    ensures var w4 := Apply(Apply(Apply(Apply(w, Creates(7)), Arrives(0, 7, -1)), Deletes({7})), Notifies(7));
      && w4.notifying == multiset{} && w4.waiters == map[] && w4.channels == map[]
      && w4.polls == map[0 := Poll(7, -1, Starting)] && w4.nextChannel == w.nextChannel
  {
    var w2 := Apply(Apply(w, Creates(7)), Arrives(0, 7, -1));
    assert w2.channels == map[7 := Channel(w.nextGeneration, 0)];
    assert {7} * w2.channels.Keys == {7};
    var w3 := Apply(w2, Deletes({7}));
    assert w3.channels == map[];
    assert w3.notifying == multiset{7};
  }

  /** A storage error can leave an entry for a channel that is gone: the poll
      subscribes after the deletion was notified, and its read fails. */
  lemma StorageErrorLeavesEntry(w: World)
    requires w.channels == map[]
    requires Init(w)
    ensures exists evs :: Quiet(Run(w, evs)) && 7 in Run(w, evs).waiters && 7 !in Run(w, evs).channels
  {
    hide *;
    DeletedAndNotified(w);
    var w1 := Apply(w, Creates(7));
    var w2 := Apply(w1, Arrives(0, 7, -1));
    var w3 := Apply(w2, Deletes({7}));
    var w4 := Apply(w3, Notifies(7));
    var w5, w6 := FailsToRead(w4);
    var evs := [Creates(7), Arrives(0, 7, -1), Deletes({7}), Notifies(7), Subscribes(0), Reads(0, true)];
    Unroll(w, evs, w1, w2, w3, w4, w5, w6);
    assert Quiet(w6);
  }

  lemma FailsToRead(w: World) returns (w5: World, w6: World)
    requires w.waiters == map[] && w.channels == map[] && w.notifying == multiset{} && w.polls == map[0 := Poll(7, -1, Starting)]
    ensures w5 == Apply(w, Subscribes(0)) && w6 == Apply(w5, Reads(0, true))
    ensures Quiet(w6) && 7 in w6.waiters && 7 !in w6.channels
  {
    w5 := Apply(w, Subscribes(0));
    assert w5.waiters == map[7 := w.nextChannel];
    w6 := Apply(w5, Reads(0, true));
    assert w6.polls.Keys == {0};
  }

  lemma Unroll(w: World, evs: seq<Event>, w1: World, w2: World, w3: World, w4: World, w5: World, w6: World)
    requires |evs| == 6
    requires w1 == Apply(w, evs[0]) && w2 == Apply(w1, evs[1]) && w3 == Apply(w2, evs[2])
    requires w4 == Apply(w3, evs[3]) && w5 == Apply(w4, evs[4]) && w6 == Apply(w5, evs[5])
    ensures Run(w, evs) == w6
  {
    hide Apply;
    assert Run(w6, evs[6..]) == w6;
    assert evs[5..][1..] == evs[6..];
    assert Run(w5, evs[5..]) == w6;
    assert evs[4..][1..] == evs[5..];
    assert Run(w4, evs[4..]) == w6;
    assert evs[3..][1..] == evs[4..];
    assert Run(w3, evs[3..]) == w6;
    assert evs[2..][1..] == evs[3..];
    assert Run(w2, evs[2..]) == w6;
    assert evs[1..][1..] == evs[2..];
    assert Run(w1, evs[1..]) == w6;
  }

  /** The mutex-guarded waiter map of the store. */
  class Waiters {
    var waiters: map<Id, nat>
    var closed: set<nat>
    var nextChannel: nat

    /** Creates the channel's notification channel if it has none. */
    method NotifyCh(id: Id, ghost w: World) returns (ch: nat)
      requires w.waiters == waiters && w.closed == closed && w.nextChannel == nextChannel
      modifies this
      ensures var w' := LongPoll.NotifyCh(w, id); waiters == w'.waiters && closed == w'.closed && nextChannel == w'.nextChannel
      ensures id in waiters && ch == waiters[id]
    {
      if id !in waiters {
        waiters := waiters[id := nextChannel];
        nextChannel := nextChannel + 1;
      }
      return waiters[id];
    }

    /** Closes and forgets it. */
    method Notify(id: Id, ghost w: World)
      requires w.waiters == waiters && w.closed == closed && w.nextChannel == nextChannel
      modifies this`waiters, this`closed
      ensures var w' := LongPoll.Notify(w, id); waiters == w'.waiters && closed == w'.closed && nextChannel == w'.nextChannel
    {
      if id in waiters {
        closed := closed + {waiters[id]};
        waiters := waiters - {id};
      }
    }
  }
}
