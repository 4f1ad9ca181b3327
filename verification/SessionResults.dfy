/** What holds of every run of one session against the log. */
module SessionResults {
  import opened Options
  import opened Session
  import opened SessionProtocol
  import opened SessionProofs
  import opened SessionSteps

  /** One session, one name: despite lost answers, renames, other writers and
      interleaved deliveries, every event a session ever gets committed carries
      the same sender name. */
  lemma OneSessionOneName(s: System, evs: seq<Event>, i: nat, j: nat)
    requires i < |Run(s, evs).log| && j < |Run(s, evs).log|
    requires Run(s, evs).log[i].call.Some? && Run(s, evs).log[j].call.Some?
    requires Init(s)
    ensures Run(s, evs).log[i].name == Run(s, evs).log[j].name
    ensures Run(s, evs).c.locked ==> Run(s, evs).c.name == Run(s, evs).log[i].name
  {
    hide Ledger, Knows, Calls, Flow, WireNames, SealNames, Evident, Init;
    InitHolds(s);
    RunKept(s, evs);
    assert Own(Run(s, evs).log, i) && Own(Run(s, evs).log, j);
  }

  /** Once an own event has been delivered, the name it carries is locked. */
  lemma DeliveredOwnLocks(s: System, evs: seq<Event>, k: nat)
    requires Run(s, evs).alive
    requires k <= Run(s, evs).c.last && k < |Run(s, evs).log| && Run(s, evs).log[k].call.Some?
    requires Init(s)
    ensures Run(s, evs).c.locked && Run(s, evs).c.name == Run(s, evs).log[k].name
  {
    hide Ledger, Knows, Calls, Flow, WireNames, SealNames, Init;
    InitHolds(s);
    RunKept(s, evs);
    assert Own(Run(s, evs).log, k);
  }

  lemma CommittedBy(r: System, i: nat, id: nat) returns (p: Post)
    requires i < |r.log| && r.log[i].call == Some(id)
    requires Inv(r)
    ensures MayCommit(r.sent, r.wire, r.outcome, p) && p.call == id && p.prev == i - 1
    ensures id in r.c.calls && CallOk(r.log, r.sent, r.wire, r.outcome, id, r.c.calls[id])
    ensures forall q | q in r.sent && q.token == p.token :: q == p
  {
    hide Flow, Knows, Names, CallOk, PostedBy;
    assert Own(r.log, i);
    p := Post(i - 1, r.log[i].token, r.log[i].name, id);
    assert p in r.sent;
  }

  /** However often it retried, a call of `append` commits at most one event. */
  lemma EachCallCommitsOnce(s: System, evs: seq<Event>, i: nat, j: nat, id: nat)
    requires i < |Run(s, evs).log| && j < |Run(s, evs).log|
    requires Run(s, evs).log[i].call == Some(id) && Run(s, evs).log[j].call == Some(id)
    requires Init(s)
    ensures i == j
  {
    hide Inv, Init, Run;
    var r := Run(s, evs);
    InitHolds(s);
    RunKept(s, evs);
    var p := CommittedBy(r, i, id);
    var q := CommittedBy(r, j, id);
    assert p == q;
  }

  /** A call returns normally only if its event is in the log. */
  lemma ReturnedMeansCommitted(s: System, evs: seq<Event>, id: nat)
    requires id in Run(s, evs).c.calls && Run(s, evs).c.calls[id].Returned?
    requires Init(s)
    ensures exists i :: 0 <= i < |Run(s, evs).log| && Run(s, evs).log[i].call == Some(id)
  {
    hide Flow, Knows, Names, Ledger, AtMostOne, Init;
    var r := Run(s, evs);
    InitHolds(s);
    RunKept(s, evs);
    assert CallOk(r.log, r.sent, r.wire, r.outcome, id, r.c.calls[id]);
  }

  /** Delivered prefix: what the session has presented is the log from its first
      event through the cursor, once each and in order. */
  lemma DeliveredPrefix(s: System, evs: seq<Event>)
    requires Init(s)
    ensures -1 <= Run(s, evs).c.last < |Run(s, evs).log|
    ensures Run(s, evs).c.presented == Page(Run(s, evs).log, 0, Run(s, evs).c.last + 1)
  {
    hide Knows, Names, Ledger, Calls, Page, Stretch, Init, Run;
    InitHolds(s);
    RunKept(s, evs);
  }

  lemma EventGrowsLog(s: System, ev: Event)
    ensures s.log <= Apply(s, ev).log
    ensures s.c.presented <= Apply(s, ev).c.presented
  {
    hide Page, Find, After, Without;
  }

  /** The log only grows, and nothing presented is ever taken back. */
  lemma {:induction false} OnlyGrows(s: System, evs: seq<Event>)
    ensures s.log <= Run(s, evs).log
    ensures s.c.presented <= Run(s, evs).c.presented
    decreases |evs|
  {
    hide Apply;
    if evs != [] {
      EventGrowsLog(s, evs[0]);
      OnlyGrows(Apply(s, evs[0]), evs[1..]);
    }
  }
}
