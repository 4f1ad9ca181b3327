/** Long polls that subscribe, read and sleep while others commit and then notify. */
module LongPoll {
  type Id = nat

  /** A channel as the store has it; a re-created one has another generation. */
  datatype Channel = Channel(generation: nat, events: nat)

  /** Where a poll stands; `ch` is the notification channel it subscribed to, and a
      sleeping poll remembers what its read saw. */
  datatype Stage =
    | Starting
    | Subscribed(ch: nat)
    | Asleep(ch: nat, generation: nat)
    | Answered

  datatype Poll = Poll(id: Id, since: int, stage: Stage)

  /** `notifying` are the calls of `notify` that committers, deleters and polls have
      still to make. `leaked` only remembers: channels whose poll failed in storage
      after they were gone, with no notify since. */
  datatype World = World(channels: map<Id, Channel>, waiters: map<Id, nat>, closed: set<nat>, notifying: multiset<Id>,
    polls: map<nat, Poll>, nextChannel: nat, nextGeneration: nat, leaked: set<Id>)

  function NotifyCh(w: World, id: Id): World {
    if id in w.waiters then w else w.(waiters := w.waiters[id := w.nextChannel], nextChannel := w.nextChannel + 1)
  }

  function Notify(w: World, id: Id): World {
    var w1 := w.(notifying := w.notifying - multiset{id}, leaked := w.leaked - {id});
    if id in w.waiters then w1.(closed := w.closed + {w.waiters[id]}, waiters := w.waiters - {id}) else w1
  }

  function At(w: World, pid: nat, stage: Stage): World
    requires pid in w.polls
  {
    w.(polls := w.polls[pid := w.polls[pid].(stage := stage)])
  }

  /** `notifyCh` before the read. */
  function Subscribe(w: World, pid: nat): World
    requires pid in w.polls
  {
    var w1 := NotifyCh(w, w.polls[pid].id);
    At(w1, pid, Subscribed(w1.waiters[w.polls[pid].id]))
  }

  /** The read: an answer if there are newer events or the channel is gone, else
      sleep. A storage error ends the poll without a notify. */
  function Read(w: World, pid: nat, fails: bool): World
    requires pid in w.polls && w.polls[pid].stage.Subscribed?
  {
    var p := w.polls[pid];
    if fails then
      At(w, pid, Answered).(leaked := if p.id !in w.channels && p.id in w.waiters && w.waiters[p.id] == p.stage.ch then w.leaked + {p.id} else w.leaked)
    else if p.id !in w.channels then At(w, pid, Answered).(notifying := w.notifying + multiset{p.id})
    else if w.channels[p.id].events - 1 > p.since then At(w, pid, Answered)
    else At(w, pid, Asleep(p.stage.ch, w.channels[p.id].generation))
  }

  datatype Event =
    | Arrives(pid: nat, id: Id, since: int)
    | Subscribes(pid: nat)
    | Reads(pid: nat, fails: bool)
    | Wakes(pid: nat)
    | GivesUp(pid: nat)                 // timeout, a client gone, or a server stopping
    | Creates(id: Id)
    | Appends(id: Id)
    | Deletes(ids: set<Id>)             // one deletion, or all that a reap removes
    | Notifies(id: Id)

  function Apply(w: World, ev: Event): World {
    match ev
    case Arrives(pid, id, since) => if pid in w.polls then w else w.(polls := w.polls[pid := Poll(id, since, Starting)])
    case Subscribes(pid) => if pid in w.polls && w.polls[pid].stage.Starting? then Subscribe(w, pid) else w
    case Reads(pid, fails) => if pid in w.polls && w.polls[pid].stage.Subscribed? then Read(w, pid, fails) else w
    case Wakes(pid) =>
      if pid in w.polls && w.polls[pid].stage.Asleep? && w.polls[pid].stage.ch in w.closed then At(w, pid, Starting) else w
    case GivesUp(pid) => if pid in w.polls && !w.polls[pid].stage.Subscribed? then At(w, pid, Answered) else w
    case Creates(id) =>
      if id in w.channels then w
      else w.(channels := w.channels[id := Channel(w.nextGeneration, 0)], nextGeneration := w.nextGeneration + 1, leaked := w.leaked - {id})
    case Appends(id) =>
      if id !in w.channels then w
      else w.(channels := w.channels[id := w.channels[id].(events := w.channels[id].events + 1)], notifying := w.notifying + multiset{id})
    case Deletes(ids) =>
      var gone := ids * w.channels.Keys;
      w.(channels := w.channels - gone, notifying := w.notifying + multiset(gone))
    case Notifies(id) => if id in w.notifying then Notify(w, id) else w
  }

  function Run(w: World, evs: seq<Event>): World
    decreases |evs|
  {
    if evs == [] then w else Run(Apply(w, evs[0]), evs[1..])
  }

  predicate Init(w: World) {
    && w.waiters == map[] && w.closed == {} && w.notifying == multiset{} && w.polls == map[] && w.leaked == {}
    && forall id | id in w.channels :: w.channels[id].generation < w.nextGeneration
  }

  // ---- Invariants ----

  /** A subscription is the current one of its channel, or already closed. */
  ghost predicate SubscribedOk(waiters: map<Id, nat>, closed: set<nat>, p: Poll) {
    p.stage.Subscribed? || p.stage.Asleep? ==> p.stage.ch in closed || (p.id in waiters && waiters[p.id] == p.stage.ch)
  }

  /** A sleeper's channel still has nothing newer and is the one it read, or the
      sleeper is awake or about to be. */
  ghost predicate SleepOk(channels: map<Id, Channel>, closed: set<nat>, notifying: multiset<Id>, p: Poll) {
    p.stage.Asleep? ==>
      p.stage.ch in closed || p.id in notifying
      || (p.id in channels && channels[p.id].generation == p.stage.generation && channels[p.id].events - 1 <= p.since)
  }

  /** Some poll holds this notification channel of `id` and has still to read. */
  ghost predicate Reading(polls: map<nat, Poll>, id: Id, ch: nat) {
    exists pid :: pid in polls && polls[pid].id == id && polls[pid].stage == Subscribed(ch)
  }

  ghost predicate WaiterOk(w: World, id: Id) {
    id in w.waiters && id !in w.channels ==> id in w.notifying || Reading(w.polls, id, w.waiters[id]) || id in w.leaked
  }

  ghost predicate Inv(w: World) {
    && (forall pid | pid in w.polls :: SubscribedOk(w.waiters, w.closed, w.polls[pid]) && SleepOk(w.channels, w.closed, w.notifying, w.polls[pid]))
    && (forall id | id in w.waiters :: WaiterOk(w, id))
    && (forall id | id in w.leaked :: id in w.waiters && id !in w.channels)
    && (forall id | id in w.channels :: w.channels[id].generation < w.nextGeneration)
    && (forall id | id in w.waiters :: w.waiters[id] < w.nextChannel && w.waiters[id] !in w.closed)
    && (forall a, b | a in w.waiters && b in w.waiters && w.waiters[a] == w.waiters[b] :: a == b)
    && (forall c | c in w.closed :: c < w.nextChannel)
  }

  lemma ReadingKept(polls: map<nat, Poll>, pid: nat, p: Poll, id: Id, ch: nat)
    requires Reading(polls, id, ch)
    requires pid in polls ==> polls[pid].id != id || polls[pid].stage != Subscribed(ch) || (p.id == id && p.stage == Subscribed(ch))
    ensures Reading(polls[pid := p], id, ch)
  {
    var q :| q in polls && polls[q].id == id && polls[q].stage == Subscribed(ch);
    assert q in polls[pid := p];
  }

  lemma PollKept(w: World, pid: nat, p: Poll)
    requires SubscribedOk(w.waiters, w.closed, p) && SleepOk(w.channels, w.closed, w.notifying, p)
    requires pid in w.polls && w.polls[pid].stage.Subscribed? ==>
      var id := w.polls[pid].id;
      id in w.channels || id in w.notifying || id !in w.waiters || w.waiters[id] != w.polls[pid].stage.ch || id in w.leaked
    requires Inv(w)
    ensures Inv(w.(polls := w.polls[pid := p]))
  {
    hide SubscribedOk, SleepOk;
    var w' := w.(polls := w.polls[pid := p]);
    forall id | id in w.waiters ensures WaiterOk(w', id) {
      assert WaiterOk(w, id);
      if id !in w.channels && id !in w.notifying && id !in w.leaked { ReadingKept(w.polls, pid, p, id, w.waiters[id]); }
    }
  }

  lemma SubscribeKept(w: World, pid: nat)
    requires pid in w.polls && w.polls[pid].stage.Starting?
    requires Inv(w)
    ensures Inv(Subscribe(w, pid))
  {
    hide SleepOk;
    var id := w.polls[pid].id;
    var w1 := NotifyCh(w, id);
    var p := w.polls[pid].(stage := Subscribed(w1.waiters[id]));
    var w' := Subscribe(w, pid);
    assert w' == w1.(polls := w.polls[pid := p]);
    forall q | q in w'.polls ensures SubscribedOk(w'.waiters, w'.closed, w'.polls[q]) && SleepOk(w'.channels, w'.closed, w'.notifying, w'.polls[q]) {
      if q != pid { assert SubscribedOk(w.waiters, w.closed, w.polls[q]); } else { assert SleepOk(w'.channels, w'.closed, w'.notifying, p) by { Awake(w', p); } }
    }
    forall x | x in w'.waiters ensures WaiterOk(w', x) {
      if x == id {
        assert pid in w'.polls;
        assert Reading(w'.polls, x, w'.waiters[x]);
      } else {
        assert WaiterOk(w, x);
        if Reading(w.polls, x, w.waiters[x]) { ReadingKept(w.polls, pid, p, x, w.waiters[x]); }
      }
    }
  }

  lemma Awake(w: World, p: Poll)
    requires !p.stage.Asleep?
    ensures SleepOk(w.channels, w.closed, w.notifying, p)
  {
  }

  /** Closing a channel and forgetting it leaves every poll and waiter in order. */
  lemma ClosedPoll(w: World, id: Id, p: Poll)
    requires SubscribedOk(w.waiters, w.closed, p) && SleepOk(w.channels, w.closed, w.notifying, p)
    ensures var w' := Notify(w, id); SubscribedOk(w'.waiters, w'.closed, p) && SleepOk(w'.channels, w'.closed, w'.notifying, p)
  {
  }

  lemma NotifyKept(w: World, id: Id)
    requires id in w.notifying
    requires Inv(w)
    ensures Inv(Notify(w, id))
  {
    hide SubscribedOk, SleepOk, Reading;
    var w' := Notify(w, id);
    forall pid | pid in w'.polls
      ensures SubscribedOk(w'.waiters, w'.closed, w'.polls[pid]) && SleepOk(w'.channels, w'.closed, w'.notifying, w'.polls[pid])
    {
      ClosedPoll(w, id, w.polls[pid]);
    }
    forall x | x in w'.waiters ensures WaiterOk(w', x) { assert WaiterOk(w, x); }
  }

  lemma ReadKept(w: World, pid: nat, fails: bool)
    requires pid in w.polls && w.polls[pid].stage.Subscribed?
    requires Inv(w)
    ensures Inv(Read(w, pid, fails))
  {
    var p := w.polls[pid];
    var w' := Read(w, pid, fails);
    var w0 := w.(notifying := w'.notifying, leaked := w'.leaked);
    assert Inv(w0) by {
      forall q | q in w.polls ensures SleepOk(w0.channels, w0.closed, w0.notifying, w0.polls[q]) { assert SleepOk(w.channels, w.closed, w.notifying, w.polls[q]); }
      forall x | x in w.waiters ensures WaiterOk(w0, x) { assert WaiterOk(w, x); }
    }
    assert SubscribedOk(w.waiters, w.closed, p);
    PollKept(w0, pid, w'.polls[pid]);
  }

  lemma StoreMoves(w: World, channels: map<Id, Channel>, notifying: multiset<Id>, leaked: set<Id>, nextGeneration: nat)
    requires forall pid | pid in w.polls && SleepOk(w.channels, w.closed, w.notifying, w.polls[pid]) ::
      SleepOk(channels, w.closed, notifying, w.polls[pid])
    requires forall id | id in w.waiters && id !in channels :: id in notifying || (id !in w.channels && id !in w.notifying && (id in w.leaked ==> id in leaked))
    requires forall id | id in leaked :: id in w.leaked && id !in channels
    requires forall id | id in channels :: channels[id].generation < nextGeneration
    requires Inv(w)
    ensures Inv(w.(channels := channels, notifying := notifying, leaked := leaked, nextGeneration := nextGeneration))
  {
    hide SleepOk;
    var w' := w.(channels := channels, notifying := notifying, leaked := leaked, nextGeneration := nextGeneration);
    forall x | x in w.waiters ensures WaiterOk(w', x) { assert WaiterOk(w, x); }
  }

  lemma CreateKept(w: World, id: Id)
    requires id !in w.channels
    requires Inv(w)
    ensures Inv(Apply(w, Creates(id)))
  {
    hide At, Notify, Read;
    var w' := Apply(w, Creates(id));
    StoreMoves(w, w'.channels, w'.notifying, w'.leaked, w'.nextGeneration);
  }

  lemma AppendKept(w: World, id: Id)
    requires id in w.channels
    requires Inv(w)
    ensures Inv(Apply(w, Appends(id)))
  {
    hide At, Notify, Read;
    var w' := Apply(w, Appends(id));
    StoreMoves(w, w'.channels, w'.notifying, w'.leaked, w'.nextGeneration);
  }

  lemma DeleteKept(w: World, ids: set<Id>)
    requires Inv(w)
    ensures Inv(Apply(w, Deletes(ids)))
  {
    hide At, Notify, Read;
    var w' := Apply(w, Deletes(ids));
    StoreMoves(w, w'.channels, w'.notifying, w'.leaked, w'.nextGeneration);
  }

  lemma EventKept(w: World, ev: Event)
    requires Inv(w)
    ensures Inv(Apply(w, ev))
  {
    hide Inv, Notify, Read;
    match ev
    case Arrives(pid, id, since) => if pid !in w.polls { PollKept(w, pid, Poll(id, since, Starting)); }
    case Subscribes(pid) => if pid in w.polls && w.polls[pid].stage.Starting? { SubscribeKept(w, pid); }
    case Reads(pid, fails) => if pid in w.polls && w.polls[pid].stage.Subscribed? { ReadKept(w, pid, fails); }
    case Wakes(pid) =>
      if pid in w.polls && w.polls[pid].stage.Asleep? { PollKept(w, pid, w.polls[pid].(stage := Starting)); }
    case GivesUp(pid) => if pid in w.polls && !w.polls[pid].stage.Subscribed? { PollKept(w, pid, w.polls[pid].(stage := Answered)); }
    case Creates(id) => if id !in w.channels { CreateKept(w, id); }
    case Appends(id) => if id in w.channels { AppendKept(w, id); }
    case Deletes(ids) => DeleteKept(w, ids);
    case Notifies(id) => if id in w.notifying { NotifyKept(w, id); }
  }

  lemma {:induction false} RunKept(w: World, evs: seq<Event>)
    requires Inv(w)
    ensures Inv(Run(w, evs))
    decreases |evs|
  {
    hide Apply, Inv;
    if evs != [] {
      EventKept(w, evs[0]);
      RunKept(Apply(w, evs[0]), evs[1..]);
    }
  }

  lemma InitHolds(w: World)
    requires Init(w)
    ensures Inv(w)
  {
  }
}
