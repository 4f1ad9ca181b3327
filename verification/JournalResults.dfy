/** What holds of every run of the gate and the chats. */
module JournalResults {
  import opened Options
  import opened Journal
  import opened JournalProofs

  /** A row is recorded only if the chat was created, and a creation takes place at
      most once: no replay makes a second chat. */
  lemma RecordedWasCreated(w: World, evs: seq<Event>, id: nat)
    requires id in Run(w, evs).recorded
    requires Init(w)
    ensures exists chat :: Birth(chat, id) in Run(w, evs).born
  {
    hide Init, Run;
    InitHolds(w);
    RunKept(w, evs);
    var r := Run(w, evs);
    assert Born(r.born, id);
    var c :| BornAt(r.born, c, id);
    assert Birth(c, id) in r.born;
  }

  lemma CreatedOnce(w: World, evs: seq<Event>, i: nat, j: nat)
    requires i < |Run(w, evs).born| && j < |Run(w, evs).born|
    requires Run(w, evs).born[i].id == Run(w, evs).born[j].id
    requires Init(w)
    ensures i == j
  {
    hide Homes, ChatsOk, RowsOk, CallsOk, OpOk, Init, Run;
    InitHolds(w);
    RunKept(w, evs);
  }

  /** A replay of a creation that took place is acknowledged and changes no chat,
      not even one deleted since. */
  lemma ReplayIsInert(w: World, evs: seq<Event>, r: Call, sameMode: bool, managed: bool)
    requires r in Run(w, evs).wire && r.creation.Some?
    requires exists chat :: Birth(chat, r.creation.value) in Run(w, evs).born
    requires Init(w)
    ensures var before, after := Run(w, evs), Handle(Run(w, evs), r, sameMode, managed);
      && r.chat in before.chats && after.chats == before.chats && after.born == before.born
      && r.call in after.answers && after.answers[r.call] == CREATED
  {
    hide RowsOk, CallsOk, OpOk, BornOnce, Init, Run;
    InitHolds(w);
    RunKept(w, evs);
    var before := Run(w, evs);
    var chat :| Birth(chat, r.creation.value) in before.born;
    assert Birth(chat, r.creation.value).chat == r.chat;
    assert r.creation.value in before.chats[r.chat].receipts;
    assert before.chats[r.chat := before.chats[r.chat]] == before.chats;
  }

  // ---- When a discarded creation can still take place ----

  /** Another request for the creation is on its way to a chat that would take it:
      once a chat is managed its id stays reserved. */
  ghost predicate CanEscape(w: World, id: nat) {
    exists q :: q in w.wire && q.creation == Some(id) && !ChatAt(w.chats, q.chat).reserved
  }

  ghost predicate Settled(w: World, id: nat) {
    id in w.discarded && !Born(w.born, id) && !CanEscape(w, id)
  }

  lemma SettledTaken(w: World, id: nat, r: Call, sameMode: bool, managed: bool)
    requires Settled(w, id) && r in w.wire
    requires Inv(w)
    ensures Settled(Handle(w, r, sameMode, managed), id)
  {
    var w' := Handle(w, r, sameMode, managed);
    forall q | q in w'.wire && q.creation == Some(id) ensures ChatAt(w'.chats, q.chat).reserved {
      assert q in w.wire && q.creation == Some(id);
      assert ChatAt(w.chats, q.chat).reserved;
    }
    var reply := ChatCreate(ChatAt(w.chats, r.chat), r.creation, sameMode, managed, w.nextId);
    assert r.creation == Some(id) ==> ChatAt(w.chats, r.chat).reserved;
    if reply.birth.Some? { BornGrows(w.born, Birth(r.chat, reply.birth.value)); }
  }

  lemma SettledMoves(w: World, w': World, id: nat, r: Call)
    requires Settled(w, id) && r.creation != Some(id)
    requires w'.wire <= w.wire + {r} && w'.born == w.born && w.discarded <= w'.discarded
    requires forall c :: ChatAt(w.chats, c).reserved ==> ChatAt(w'.chats, c).reserved
    ensures Settled(w', id)
  {
    forall q | q in w'.wire && q.creation == Some(id) ensures ChatAt(w'.chats, q.chat).reserved {
      assert q in w.wire && q.creation == Some(id);
    }
  }

  /** An event that is not a chat's adds at most one request, and none for a
      discarded creation. */
  ghost predicate SendsOne(w: World, w': World, r: Call) {
    && w'.wire <= w.wire + {r} && w'.born == w.born && w.discarded <= w'.discarded
    && (forall c :: ChatAt(w.chats, c).reserved ==> ChatAt(w'.chats, c).reserved)
    && (forall id | id in w.discarded :: r.creation != Some(id))
  }

  lemma CreateSends(w: World, chat: nat, auth: nat, encryption: bool, now: nat, enabled: bool) returns (r: Call)
    requires Inv(w)
    ensures SendsOne(w, Create(w, chat, auth, encryption, now, enabled), r)
  {
    hide Born, ChatsOk, BornOnce, CallsOk, OpOk, FindPending;
    var pending := FindPending(w.rows, chat);
    r := Send(w, chat, encryption, if !enabled then None else if pending.Some? then pending else Some(w.nextId));
  }

  lemma ReplaySends(w: World, ids: seq<nat>) returns (r: Call)
    requires ids != [] ==> ids[0] !in w.discarded
    ensures SendsOne(w, Replay(w, ids), r)
  {
    r := if ids != [] && ids[0] in w.rows then Send(w, w.rows[ids[0]].chat, w.rows[ids[0]].encryption, Some(ids[0])) else Call(0, 0, false, None);
  }

  lemma HeardSends(w: World) returns (r: Call)
    requires Inv(w)
    ensures SendsOne(w, Answered(w), r)
  {
    hide Born, ChatsOk, BornOnce, CallsOk, Homes, Replay;
    r := Call(0, 0, false, None);
    if !w.op.Idle? && w.op.wait.call in w.answers {
      var w1 := Note(w, w.op.wait.creation, w.answers[w.op.wait.call]);
      if w.op.Recovering? {
        if w.op.rest != [] { assert Pending(w.rows, w.op.rest[0]); }
        r := ReplaySends(w1, w.op.rest);
      }
    }
  }

  lemma OneSent(w: World, ev: Event) returns (r: Call)
    requires !ev.ChatTakes?
    requires Inv(w)
    ensures SendsOne(w, Apply(w, ev), r)
  {
    hide Born, ChatsOk, BornOnce, CallsOk, Homes, Create, Replay, Answered;
    r := Call(0, 0, false, None);
    match ev
    case CreateChat(chat, auth, encryption, now, enabled) => r := CreateSends(w, chat, auth, encryption, now, enabled);
    case RecoverRows(ids) =>
      if ids != [] && Pending(w.rows, ids[0]) { r := ReplaySends(w, ids); } else if ids == [] { r := ReplaySends(w, ids); }
    case GateHears => r := HeardSends(w);
    case _ =>
  }

  lemma SettledKept(w: World, ev: Event, id: nat)
    requires Settled(w, id)
    requires Inv(w)
    ensures Settled(Apply(w, ev), id)
  {
    hide Inv, Settled, ChatAt, Handle, Born;
    if ev.ChatTakes? {
      if ev.r in w.wire { SettledTaken(w, id, ev.r, ev.sameMode, ev.managed); }
    } else {
      var r := OneSent(w, ev);
      assert id in w.discarded by { SettledIs(w, id); }
      SettledMoves(w, Apply(w, ev), id, r);
    }
  }

  lemma SettledIs(w: World, id: nat)
    requires Settled(w, id)
    ensures id in w.discarded && !Born(w.born, id)
  {
  }

  lemma {:induction false} SettledStays(w: World, evs: seq<Event>, id: nat)
    requires Settled(w, id)
    requires Inv(w)
    ensures !Born(Run(w, evs).born, id)
    decreases |evs|
  {
    hide Inv, Settled, Apply;
    SettledIs(w, id);
    if evs != [] {
      EventKept(w, evs[0]);
      SettledKept(w, evs[0], id);
      SettledStays(Apply(w, evs[0]), evs[1..], id);
    }
  }

  lemma TwoEvents(w: World, a: Event, b: Event)
    ensures Run(w, [a, b]) == Apply(Apply(w, a), b)
  {
    hide Apply;
    assert [a, b][1..] == [b];
    assert Run(Apply(w, a), [b]) == Run(Apply(Apply(w, a), b), []);
  }

  lemma ReceiptMeansBorn(w: World, chat: nat, id: nat)
    requires Inv(w)
    ensures id in ChatAt(w.chats, chat).receipts ==> Born(w.born, id)
  {
    if id in ChatAt(w.chats, chat).receipts { assert BornAt(w.born, chat, id); }
  }

  /** The chat is cleared, and then takes the request that was on its way. */
  lemma Escapes(w: World, id: nat, q: Call)
    requires !Born(w.born, id)
    requires q in w.wire && q.creation == Some(id) && !ChatAt(w.chats, q.chat).reserved
    requires Inv(w)
    ensures Born(Run(w, [ChatErased(q.chat), ChatTakes(q, true, true)]).born, id)
  {
    hide Run, Born, Inv, Answered;
    var w1 := Apply(w, ChatErased(q.chat));
    EventKept(w, ChatErased(q.chat));
    assert ChatAt(w1.chats, q.chat).channel.None?;
    ReceiptMeansBorn(w1, q.chat, id);
    TwoEvents(w, ChatErased(q.chat), ChatTakes(q, true, true));
    BornGrows(w1.born, Birth(q.chat, id));
  }

  /** Exactly when a discarded creation takes place in some continuation: it has done
      so already, or another request for it is on its way to a chat not reserved. */
  lemma EscapesExactly(w: World, id: nat)
    requires id in w.discarded
    requires Inv(w)
    ensures (exists evs :: Born(Run(w, evs).born, id)) <==> Born(w.born, id) || CanEscape(w, id)
  {
    hide Inv, Born, ChatAt;
    if Born(w.born, id) {
      assert Run(w, []) == w;
      assert Born(Run(w, []).born, id);
    } else if CanEscape(w, id) {
      var q :| q in w.wire && q.creation == Some(id) && !ChatAt(w.chats, q.chat).reserved;
      Escapes(w, id, q);
      var evs := [ChatErased(q.chat), ChatTakes(q, true, true)];
      assert Born(Run(w, evs).born, id);
    } else {
      forall evs ensures !Born(Run(w, evs).born, id) { SettledStays(w, evs, id); }
    }
  }

  /** The gate is about to hear that a journalled creation was turned down. */
  ghost predicate TurnedDownNext(w: World, id: nat) {
    && !w.op.Idle? && w.op.wait.creation == Some(id) && w.op.wait.call in w.answers
    && (w.answers[w.op.wait.call] == EXISTS || w.answers[w.op.wait.call] == MODE_CHANGED)
  }

  /** The chat of a journalled creation holds its receipt exactly when it took place. */
  lemma ReceiptIsBirth(w: World, id: nat)
    requires id in w.home
    requires Inv(w)
    ensures id in ChatAt(w.chats, w.home[id]).receipts <==> Born(w.born, id)
  {
    hide RowsOk, CallsOk, OpOk, BornOnce;
    if Born(w.born, id) {
      var c :| BornAt(w.born, c, id);
      assert Birth(c, id).id == id;
    }
    if id in ChatAt(w.chats, w.home[id]).receipts { assert BornAt(w.born, w.home[id], id); }
  }

  /** Discarding a row on a refusal is final exactly when the chat holds no receipt
      for the creation by then and no other request for it is on its way to a chat
      not reserved: what can be seen before the gate hears the refusal. */
  lemma DiscardIsFinalExactly(w0: World, before: seq<Event>, id: nat)
    requires TurnedDownNext(Run(w0, before), id)
    requires Init(w0)
    ensures var w := Run(w0, before);
      && id in w.home && id in Answered(w).discarded
      && ((exists evs :: Born(Run(Answered(w), evs).born, id)) <==> (id in ChatAt(w.chats, w.home[id]).receipts || CanEscape(w, id)))
  {
    hide Answered, ChatAt;
    var w := Run(w0, before);
    InitHolds(w0);
    RunKept(w0, before);
    var w' := Answered(w);
    assert Pending(w.rows, id);
    EventKept(w, GateHears);
    assert Apply(w, GateHears) == w';
    ReceiptIsBirth(w, id);
    assert w'.born == w.born && w'.chats == w.chats && id in w'.discarded by { HearsRefusal(w, id); }
    SameEscape(w, id);
    EscapesExactly(w', id);
  }

  lemma HearsRefusal(w: World, id: nat)
    requires TurnedDownNext(w, id)
    requires Inv(w)
    ensures Answered(w).born == w.born && Answered(w).chats == w.chats && id in Answered(w).discarded && w.wire <= Answered(w).wire
    ensures forall q | q in Answered(w).wire && q !in w.wire :: q.creation != Some(id)
  {
    hide Homes, ChatsOk, RowsOk, CallsOk, BornOnce;
    assert Pending(w.rows, id);
  }

  lemma SameEscape(w: World, id: nat)
    requires TurnedDownNext(w, id)
    requires Inv(w)
    ensures CanEscape(Answered(w), id) <==> CanEscape(w, id)
  {
    hide Inv, Answered, TurnedDownNext;
    HearsRefusal(w, id);
    var w' := Answered(w);
    if CanEscape(w, id) {
      var q :| q in w.wire && q.creation == Some(id) && !ChatAt(w.chats, q.chat).reserved;
      assert q in w'.wire;
    }
    if CanEscape(w', id) {
      var q :| q in w'.wire && q.creation == Some(id) && !ChatAt(w'.chats, q.chat).reserved;
      assert q in w.wire;
    }
  }

  // ---- When the journal is exact ----

  /** The two events that make the journal wrong about a creation: a chat free to do
      so takes a request for one already discarded, or the gate hears a refusal of
      one that took place since. */
  ghost predicate Escape(w: World, ev: Event, id: nat) {
    || (ev.ChatTakes? && ev.r in w.wire && ev.r.creation == Some(id) && ev.sameMode && id in w.discarded
        && var c := ChatAt(w.chats, ev.r.chat); id !in c.receipts && c.channel.None? && !c.reserved)
    || (ev == GateHears && TurnedDownNext(w, id) && id in ChatAt(w.chats, w.op.wait.chat).receipts)
  }

  ghost predicate Escaped(w: World, id: nat) { id in w.discarded && Born(w.born, id) }

  lemma TakenEscapes(w: World, r: Call, sameMode: bool, managed: bool, id: nat)
    requires r in w.wire && id in w.home
    requires Inv(w)
    ensures Escaped(Handle(w, r, sameMode, managed), id) <==> Escaped(w, id) || Escape(w, ChatTakes(r, sameMode, managed), id)
  {
    hide ChatAt;
    var reply := ChatCreate(ChatAt(w.chats, r.chat), r.creation, sameMode, managed, w.nextId);
    ReceiptIsBirth(w, id);
    if reply.birth.Some? { BornGrows(w.born, Birth(r.chat, reply.birth.value)); }
  }

  lemma HomeOfWait(w: World, id: nat)
    requires TurnedDownNext(w, id) && WaitHome(w)
    requires Inv(w)
    ensures id in w.home && w.home[id] == w.op.wait.chat
  {
  }

  /** The request the gate waits for names the chat of its creation. */
  ghost predicate WaitHome(w: World) {
    !w.op.Idle? && w.op.wait.creation.Some? ==> w.op.wait.creation.value in w.home && w.home[w.op.wait.creation.value] == w.op.wait.chat
  }

  lemma WaitHomeKept(w: World, ev: Event)
    requires WaitHome(w)
    requires Inv(w)
    ensures WaitHome(Apply(w, ev))
  {
    hide Born, ChatsOk, BornOnce, CallsOk, OpOk, ChatCreate, ChatAt, Note, Traced, FindPending;
    if ev.GateHears? && !w.op.Idle? && w.op.wait.call in w.answers {
      NoteIsQuiet(w, w.op.wait.creation, w.answers[w.op.wait.call]);
      EventKept(w, ev);
    }
  }

  lemma HeardEscapes(w: World, id: nat)
    requires WaitHome(w) && id in w.home
    requires Inv(w)
    ensures Escaped(Answered(w), id) <==> Escaped(w, id) || Escape(w, GateHears, id)
  {
    hide ChatAt, Born, Inv;
    ReceiptIsBirth(w, id);
    hide Homes, ChatsOk, RowsOk, CallsOk, BornOnce, Born;
    if TurnedDownNext(w, id) { HearsRefusal(w, id); HomeOfWait(w, id); }
  }

  lemma StepEscapes(w: World, ev: Event, id: nat)
    requires WaitHome(w) && id in w.home
    requires Inv(w)
    ensures Escaped(Apply(w, ev), id) <==> Escaped(w, id) || Escape(w, ev, id)
  {
    hide Inv, Born, WaitHome, Answered, Handle;
    if ev.ChatTakes? {
      if ev.r in w.wire { TakenEscapes(w, ev.r, ev.sameMode, ev.managed, id); }
    } else if ev == GateHears {
      HeardEscapes(w, id);
    }
  }

  ghost predicate EscapeIn(w: World, evs: seq<Event>, id: nat) {
    exists k :: 0 <= k < |evs| && Escape(Run(w, evs[..k]), evs[k], id)
  }

  lemma EscapeSplits(w: World, evs: seq<Event>, id: nat)
    requires evs != []
    ensures EscapeIn(w, evs, id) <==> Escape(w, evs[0], id) || EscapeIn(Apply(w, evs[0]), evs[1..], id)
  {
    hide Escape, Apply;
    var w1, rest := Apply(w, evs[0]), evs[1..];
    assert Run(w, evs[..0]) == w;
    forall k | 0 <= k < |rest| ensures Run(w, evs[..k + 1]) == Run(w1, rest[..k]) && evs[k + 1] == rest[k] {
      assert evs[..k + 1][0] == evs[0] && evs[..k + 1][1..] == rest[..k];
    }
    if EscapeIn(w, evs, id) {
      var k :| 0 <= k < |evs| && Escape(Run(w, evs[..k]), evs[k], id);
      if k > 0 {
        var j := k - 1;
        assert Run(w, evs[..j + 1]) == Run(w1, rest[..j]);
        assert Escape(Run(w1, rest[..j]), rest[j], id);
      }
    }
    if Escape(w, evs[0], id) { assert Escape(Run(w, evs[..0]), evs[0], id); }
    if EscapeIn(w1, rest, id) {
      var k :| 0 <= k < |rest| && Escape(Run(w1, rest[..k]), rest[k], id);
      assert Run(w, evs[..k + 1]) == Run(w1, rest[..k]);
      assert Escape(Run(w, evs[..k + 1]), evs[k + 1], id);
    }
  }

  lemma ReplayHome(w: World, ids: seq<nat>)
    ensures Replay(w, ids).home == w.home
  {
    hide Send;
  }

  /** Only noting a creation down gives it a chat. */
  lemma HomeStays(w: World, ev: Event)
    ensures !ev.CreateChat? ==> Apply(w, ev).home == w.home
    ensures w.home.Keys <= Apply(w, ev).home.Keys && (ev.CreateChat? ==> Apply(w, ev).discarded == w.discarded)
  {
    hide FindPending, ChatAt, ChatCreate, Send, Note, Replay;
    if ev.GateHears? && !w.op.Idle? && w.op.wait.call in w.answers { NoteIsQuiet(w, w.op.wait.creation, w.answers[w.op.wait.call]); }
    forall w1: World, ids ensures Replay(w1, ids).home == w1.home { ReplayHome(w1, ids); }
  }

  lemma HomeGrows(w: World, ev: Event)
    requires Inv(w)
    ensures w.home.Keys <= Apply(w, ev).home.Keys
    ensures forall id | id in Apply(w, ev).home && id !in w.home :: !Escape(w, ev, id) && !Escaped(Apply(w, ev), id)
  {
    hide ChatsOk, CallsOk, BornOnce, OpOk, Homes, Handle, Answered, Replay, Born, FindPending;
    HomeStays(w, ev);
  }

  lemma {:induction false} RunEscapes(w: World, evs: seq<Event>, id: nat)
    requires WaitHome(w) && id in Run(w, evs).home && (id !in w.home ==> !Escaped(w, id))
    requires Inv(w)
    ensures Escaped(Run(w, evs), id) <==> Escaped(w, id) || EscapeIn(w, evs, id)
    decreases |evs|
  {
    hide Inv, WaitHome, Escaped, Escape, Apply;
    if evs != [] {
      EscapeSplits(w, evs, id);
      EventKept(w, evs[0]);
      WaitHomeKept(w, evs[0]);
      HomeGrows(w, evs[0]);
      var w1 := Apply(w, evs[0]);
      if id in w.home { StepEscapes(w, evs[0], id); } else { NotYetKnown(w, evs[0], id); }
      RunEscapes(w1, evs[1..], id);
    }
  }

  lemma NotYetKnown(w: World, ev: Event, id: nat)
    requires id !in w.home
    requires Inv(w)
    ensures !Escaped(w, id) && !Escape(w, ev, id) && !Escaped(Apply(w, ev), id)
  {
    hide ChatsOk, CallsOk, BornOnce, Apply;
    EventKept(w, ev);
    OldDiscards(w, ev);
  }

  lemma OldDiscards(w: World, ev: Event)
    requires Inv(w)
    ensures forall id | id in Apply(w, ev).discarded :: id in w.home
  {
    hide ChatsOk, CallsOk, BornOnce, OpOk, ChatCreate, ChatAt, Born, FindPending, Traced;
  }

  /** What the journal promises about one creation. */
  ghost predicate ExactAbout(w: World, id: nat) {
    && (Born(w.born, id) ==> id in w.recorded || Pending(w.rows, id))
    && (id in w.discarded ==> !Born(w.born, id))
    && (!Pending(w.rows, id) ==> (id in w.recorded <==> Born(w.born, id)))
  }

  lemma ExactUnlessEscaped(w: World, id: nat)
    requires id in w.home
    requires Inv(w)
    ensures ExactAbout(w, id) <==> !Escaped(w, id)
  {
    hide Homes, ChatsOk, BornOnce, CallsOk, OpOk, Born;
    assert Traced(w.rows, w.recorded, w.discarded, id);
  }

  /** The journal is exact about a creation if and only if neither event occurs for it:
      then what is recorded took place, what took place is recorded or pending, what
      is discarded did not, and with nothing pending recorded means created. */
  lemma JournalIsExact(w: World, evs: seq<Event>, id: nat)
    requires id in Run(w, evs).home
    requires Init(w)
    ensures ExactAbout(Run(w, evs), id) <==> !EscapeIn(w, evs, id)
  {
    hide *;
    InitHolds(w);
    RunKept(w, evs);
    assert WaitHome(w) && !Escaped(w, id) by { InitQuiet(w, id); }
    RunEscapes(w, evs, id);
    ExactUnlessEscaped(Run(w, evs), id);
  }

  lemma InitQuiet(w: World, id: nat)
    requires Init(w)
    ensures WaitHome(w) && !Escaped(w, id)
  {
  }

  // ---- No request outlives the wait for it ----

  ghost predicate Prompt(evs: seq<Event>) {
    forall ev | ev in evs :: ev.GateStops? ==> ev.dropped
  }

  /** At most the request the gate waits for is on its way, and a refusal it is about
      to hear is still right. */
  ghost predicate OneOut(w: World) {
    && (forall r | r in w.wire :: !w.op.Idle? && r == w.op.wait)
    && (forall id | TurnedDownNext(w, id) :: id !in ChatAt(w.chats, w.op.wait.chat).receipts)
  }

  lemma OneOutTaken(w: World, r: Call, sameMode: bool, managed: bool)
    requires OneOut(w) && r in w.wire
    requires Inv(w)
    ensures OneOut(Handle(w, r, sameMode, managed))
  {
    hide Inv;
  }

  lemma NothingOut(w: World)
    requires OneOut(w)
    requires Inv(w)
    ensures w.nextCall !in w.answers
    ensures w.op.Idle? || w.op.wait.call in w.answers ==> w.wire == {}
  {
    hide Homes, ChatsOk, BornOnce, RowsOk, OpOk;
  }

  lemma NoteIsQuiet(w: World, creation: Option<nat>, status: nat)
    ensures var w' := Note(w, creation, status);
      w'.wire == w.wire && w'.answers == w.answers && w'.nextCall == w.nextCall && w'.op == w.op && w'.home == w.home
  {
  }

  lemma OneOutHeard(w: World)
    requires OneOut(w)
    requires Inv(w)
    ensures OneOut(Answered(w))
  {
    hide Inv, OneOut, Replay, Note;
    if !w.op.Idle? && w.op.wait.call in w.answers {
      NothingOut(w);
      var c, status := w.op.wait.creation, w.answers[w.op.wait.call];
      NoteIsQuiet(w, c, status);
      OneOutReplays(Note(w, c, status), if w.op.Recovering? then w.op.rest else []);
    }
  }

  lemma OneOutReplays(w: World, ids: seq<nat>)
    requires w.wire == {} && w.nextCall !in w.answers
    ensures OneOut(Replay(w, ids)) && OneOut(w.(op := Idle))
  {
  }

  lemma OneOutSame(w: World, w': World)
    requires OneOut(w) && w'.wire == w.wire && w'.op == w.op && w'.answers == w.answers
    requires forall c :: ChatAt(w'.chats, c).receipts == ChatAt(w.chats, c).receipts
    ensures OneOut(w')
  {
    assert forall id | TurnedDownNext(w', id) :: TurnedDownNext(w, id);
  }

  lemma OneOutCreated(w: World, chat: nat, auth: nat, encryption: bool, now: nat, enabled: bool)
    requires OneOut(w)
    requires Inv(w)
    ensures OneOut(Create(w, chat, auth, encryption, now, enabled))
  {
    hide Homes, ChatsOk, BornOnce, RowsOk;
  }

  lemma OneOutKept(w: World, ev: Event)
    requires OneOut(w) && (ev.GateStops? ==> ev.dropped)
    requires Inv(w)
    ensures OneOut(Apply(w, ev))
  {
    hide Inv, Answered, Create, Handle, Replay;
    match ev
    case CreateChat(chat, auth, encryption, now, enabled) => OneOutCreated(w, chat, auth, encryption, now, enabled);
    case ChatTakes(r, sameMode, managed) => if r in w.wire { OneOutTaken(w, r, sameMode, managed); }
    case GateHears => OneOutHeard(w);
    case RecoverRows(ids) => NothingOut(w); if w.op.Idle? { OneOutReplays(w, ids); }
    case ChatErased(chat) => OneOutSame(w, Apply(w, ev));
    case ChatRestored(chat) => OneOutSame(w, Apply(w, ev));
    case CleanedUp(before) => OneOutSame(w, Apply(w, ev));
    case GateStops(dropped) =>
  }

  lemma OneOutNoEscape(w: World, ev: Event, id: nat)
    requires OneOut(w)
    requires Inv(w)
    ensures !Escape(w, ev, id)
  {
    hide Homes, ChatsOk, BornOnce, CallsOk;
  }

  /** If no request outlives the gate's wait for it, the journal is always exact. */
  lemma {:induction false} PromptNeverEscapes(w: World, evs: seq<Event>, id: nat)
    requires OneOut(w) && Prompt(evs)
    requires Inv(w)
    ensures !EscapeIn(w, evs, id)
    decreases |evs|
  {
    hide Inv, OneOut, Escape, Apply, Run;
    if evs != [] {
      assert evs[0] in evs;
      forall ev | ev in evs[1..] ensures ev.GateStops? ==> ev.dropped { assert ev in evs; }
      EscapeSplits(w, evs, id);
      OneOutNoEscape(w, evs[0], id);
      EventKept(w, evs[0]);
      OneOutKept(w, evs[0]);
      PromptNeverEscapes(Apply(w, evs[0]), evs[1..], id);
    }
  }

  lemma PromptIsExact(w: World, evs: seq<Event>, id: nat)
    requires Prompt(evs) && id in Run(w, evs).home
    requires Init(w)
    ensures ExactAbout(Run(w, evs), id)
  {
    hide Inv, Run, EscapeIn, ExactAbout;
    InitHolds(w);
    PromptNeverEscapes(w, evs, id);
    JournalIsExact(w, evs, id);
  }

  /** The exception is real. The gate stops waiting for a request that stays on its
      way; while the chat's mode differs the replay is turned down and the row
      discarded; then the first request arrives and creates a chat no row knows. */
  lemma LateRequestEscapes(w: World)
    requires Init(w)
    ensures exists evs, id :: var r := Run(w, evs);
      id in r.home && Birth(0, id) in r.born && id !in r.recorded && !Pending(r.rows, id) && id in r.discarded
  {
    hide *;
    var id := w.nextId;
    var r0, r1 := Call(w.nextCall, 0, true, Some(id)), Call(w.nextCall + 1, 0, true, Some(id));
    var w1 := Apply(w, CreateChat(0, 0, true, 0, true));
    var w2 := Apply(w1, GateStops(false));
    var w3 := Apply(w2, RecoverRows([id]));
    var w4 := Apply(w3, ChatTakes(r1, false, true));
    var w5 := Apply(w4, GateHears);
    var w6 := Apply(w5, ChatTakes(r0, true, true));
    LateSent(w);
    LateDiscarded(w3, id, r0, r1);
    var evs := [CreateChat(0, 0, true, 0, true), GateStops(false), RecoverRows([id]), ChatTakes(r1, false, true), GateHears, ChatTakes(r0, true, true)];
    RunIs(w, evs, w6, w1, w2, w3, w4, w5);
  }

  lemma LateSent(w: World)
    requires Init(w)
    ensures var id := w.nextId;
      var r0, r1 := Call(w.nextCall, 0, true, Some(id)), Call(w.nextCall + 1, 0, true, Some(id));
      var w3 := Apply(Apply(Apply(w, CreateChat(0, 0, true, 0, true)), GateStops(false)), RecoverRows([id]));
      && w3.op == Recovering(r1, []) && w3.wire == {r0, r1} && r0 != r1 && w3.rows == map[id := Row(0, 0, true, 0, false)]
      && w3.home == map[id := 0] && w3.chats == map[] && w3.answers == map[] && w3.born == [] && w3.recorded == {}
  {
    var id := w.nextId;
    var r0 := Call(w.nextCall, 0, true, Some(id));
    var w1 := Apply(w, CreateChat(0, 0, true, 0, true));
    assert w1.op == Creating(r0) && w1.wire == {r0} && w1.rows == map[id := Row(0, 0, true, 0, false)];
  }

  lemma LateDiscarded(w3: World, id: nat, r0: Call, r1: Call)
    requires r0.chat == 0 && r1.chat == 0 && r0.creation == Some(id) && r1.creation == Some(id) && r0 != r1
    requires w3.op == Recovering(r1, []) && w3.wire == {r0, r1} && w3.rows == map[id := Row(0, 0, true, 0, false)]
    requires w3.home == map[id := 0] && w3.chats == map[] && w3.answers == map[] && w3.born == [] && w3.recorded == {}
    ensures var r := Apply(Apply(Apply(w3, ChatTakes(r1, false, true)), GateHears), ChatTakes(r0, true, true));
      id in r.home && Birth(0, id) in r.born && id !in r.recorded && !Pending(r.rows, id) && id in r.discarded
  {
    var w4 := Apply(w3, ChatTakes(r1, false, true));
    assert w4.answers == map[r1.call := MODE_CHANGED] && w4.wire == {r0} && ChatAt(w4.chats, 0) == NO_CHAT;
    var w5 := Apply(w4, GateHears);
    assert w5.rows == map[] && id in w5.discarded && w5.wire == {r0} && w5.recorded == {};
    assert Apply(w5, ChatTakes(r0, true, true)).born == [Birth(0, id)];
  }

  lemma RunIs(w: World, evs: seq<Event>, w6: World, w1: World, w2: World, w3: World, w4: World, w5: World)
    requires |evs| == 6
    requires w1 == Apply(w, evs[0]) && w2 == Apply(w1, evs[1]) && w3 == Apply(w2, evs[2])
    requires w4 == Apply(w3, evs[3]) && w5 == Apply(w4, evs[4]) && w6 == Apply(w5, evs[5])
    ensures Run(w, evs) == w6
  {
    hide Apply;
    assert Run(w6, evs[6..]) == w6;
    assert evs[5..][1..] == evs[6..];
    assert Run(w5, evs[5..]) == w6;
    assert evs[4..][1..] == evs[5..];
    assert Run(w4, evs[4..]) == w6;
    assert evs[3..][1..] == evs[4..];
    assert Run(w3, evs[3..]) == w6;
    assert evs[2..][1..] == evs[3..];
    assert Run(w2, evs[2..]) == w6;
    assert evs[1..][1..] == evs[2..];
    assert Run(w1, evs[1..]) == w6;
  }
}
