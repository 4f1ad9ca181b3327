/** What is recorded was created, what is discarded was not, and nothing is created twice. */
module JournalProofs {
  import opened Options
  import opened Journal

  ghost predicate BornAt(born: seq<Birth>, chat: nat, id: nat) { Birth(chat, id) in born }

  ghost predicate Born(born: seq<Birth>, id: nat) { exists chat :: BornAt(born, chat, id) }

  /** Each journalled creation belongs to one chat, in its row, its requests and its birth. */
  ghost predicate Homes(rows: map<nat, Row>, home: map<nat, nat>, wire: set<Call>, born: seq<Birth>, nextId: nat) {
    && (forall id | id in home :: id < nextId)
    && (forall id | id in rows :: id in home && home[id] == rows[id].chat)
    && (forall r | r in wire && r.creation.Some? :: r.creation.value in home && home[r.creation.value] == r.chat)
    && (forall b | b in born :: b.id < nextId && (b.id in home ==> home[b.id] == b.chat))
  }

  /** A chat's receipts are its journalled births, and its generation is a birth. */
  ghost predicate ChatsOk(chats: map<nat, Chat>, home: map<nat, nat>, born: seq<Birth>) {
    && (forall c, id | c in chats :: id in chats[c].receipts ==> BornAt(born, c, id))
    && (forall b | b in born && b.id in home :: b.chat in chats && b.id in chats[b.chat].receipts)
    && (forall c | c in chats && chats[c].channel.Some? :: BornAt(born, c, chats[c].channel.value))
    && (forall c | c in chats && chats[c].archived.Some? :: BornAt(born, c, chats[c].archived.value))
  }

  ghost predicate BornOnce(born: seq<Birth>) {
    forall i, j | 0 <= i < j < |born| :: born[i].id != born[j].id
  }

  ghost predicate Traced(rows: map<nat, Row>, recorded: set<nat>, discarded: set<nat>, id: nat) {
    Pending(rows, id) || id in recorded || id in discarded
  }

  ghost predicate RowsOk(rows: map<nat, Row>, recorded: set<nat>, discarded: set<nat>, home: map<nat, nat>, born: seq<Birth>) {
    && (forall id | id in rows :: id in recorded <==> rows[id].recorded)
    && (forall id | id in recorded :: id in home)
    && (forall id | id in discarded :: id in home && id !in rows && id !in recorded)
    && (forall id | id in recorded :: Born(born, id))
    && (forall id | id in home :: Traced(rows, recorded, discarded, id))
    && (forall a, b | Pending(rows, a) && Pending(rows, b) && rows[a].chat == rows[b].chat :: a == b)
  }

  ghost predicate CallsOk(wire: set<Call>, answers: map<nat, nat>, nextCall: nat) {
    && (forall r | r in wire :: r.call < nextCall && r.call !in answers)
    && (forall q, r | q in wire && r in wire && q.call == r.call :: q == r)
    && (forall c | c in answers :: c < nextCall)
  }

  ghost predicate WaitOk(wait: Call, rows: map<nat, Row>, wire: set<Call>, answers: map<nat, nat>, born: seq<Birth>, nextCall: nat) {
    && wait.call < nextCall
    && (forall q | q in wire && q.call == wait.call :: q == wait)
    && (wait.creation.Some? ==> Pending(rows, wait.creation.value))
    && (wait.creation.Some? && wait.call in answers && answers[wait.call] == CREATED ==> Born(born, wait.creation.value))
  }

  ghost predicate OpOk(op: Op, rows: map<nat, Row>, wire: set<Call>, answers: map<nat, nat>, born: seq<Birth>, nextCall: nat) {
    && (!op.Idle? ==> WaitOk(op.wait, rows, wire, answers, born, nextCall))
    && (op.Recovering? ==>
        (op.wait.creation.Some?
         && (forall i | 0 <= i < |op.rest| :: Pending(rows, op.rest[i]) && op.rest[i] != op.wait.creation.value)
         && (forall i, j | 0 <= i < j < |op.rest| :: op.rest[i] != op.rest[j])))
  }

  ghost predicate Inv(w: World) {
    && Homes(w.rows, w.home, w.wire, w.born, w.nextId)
    && ChatsOk(w.chats, w.home, w.born)
    && BornOnce(w.born)
    && RowsOk(w.rows, w.recorded, w.discarded, w.home, w.born)
    && CallsOk(w.wire, w.answers, w.nextCall)
    && OpOk(w.op, w.rows, w.wire, w.answers, w.born, w.nextCall)
  }

  // ---- The chat takes a request ----

  lemma SameChats(chats: map<nat, Chat>, home: map<nat, nat>, born: seq<Birth>, chat: nat)
    requires ChatsOk(chats, home, born)
    ensures ChatsOk(chats[chat := ChatAt(chats, chat)], home, born)
  {
    hide BornAt;
  }

  /** A chat acknowledges a creation without a birth only if it has taken place. */
  lemma Acknowledged(w: World, r: Call, sameMode: bool, managed: bool)
    requires ChatsOk(w.chats, w.home, w.born)
    ensures var reply := ChatCreate(ChatAt(w.chats, r.chat), r.creation, sameMode, managed, w.nextId);
      && (reply.birth.None? ==> reply.chat == ChatAt(w.chats, r.chat))
      && (reply.birth.None? && reply.status == CREATED && r.creation.Some? ==> Born(w.born, r.creation.value))
  {
    var reply := ChatCreate(ChatAt(w.chats, r.chat), r.creation, sameMode, managed, w.nextId);
    if reply.birth.None? && reply.status == CREATED && r.creation.Some? {
      assert BornAt(w.born, r.chat, r.creation.value);
    }
  }

  /** No birth. */
  lemma TurnedDown(w: World, r: Call, sameMode: bool, managed: bool)
    requires r in w.wire
    requires ChatCreate(ChatAt(w.chats, r.chat), r.creation, sameMode, managed, w.nextId).birth.None?
    requires Inv(w)
    ensures Inv(Handle(w, r, sameMode, managed))
  {
    hide Born, ChatsOk, BornOnce, RowsOk;
    SameChats(w.chats, w.home, w.born, r.chat);
    Acknowledged(w, r, sameMode, managed);
  }

  /** A creation the chat has no receipt for has not taken place. */
  lemma NotBorn(w: World, r: Call)
    requires r in w.wire && r.creation.Some?
    requires r.creation.value !in ChatAt(w.chats, r.chat).receipts
    requires Inv(w)
    ensures !Born(w.born, r.creation.value)
  {
  }

  lemma BirthRows(w: World, b: Birth)
    requires RowsOk(w.rows, w.recorded, w.discarded, w.home, w.born)
    ensures RowsOk(w.rows, w.recorded, w.discarded, w.home, w.born + [b])
  {
    hide Born, Traced;
    BornGrows(w.born, b);
  }

  lemma BirthChats(chats: map<nat, Chat>, home: map<nat, nat>, born: seq<Birth>, b: Birth, chat: Chat)
    requires ChatsOk(chats, home, born)
    requires chat.channel == Some(b.id) && (chat.archived == Some(b.id) || chat.archived == None)
    requires chat.receipts == ChatAt(chats, b.chat).receipts + {b.id} || (b.id !in home && chat.receipts == ChatAt(chats, b.chat).receipts)
    ensures ChatsOk(chats[b.chat := chat], home, born + [b])
  {
    assert forall c, id | BornAt(born, c, id) :: BornAt(born + [b], c, id);
    assert BornAt(born + [b], b.chat, b.id);
  }

  lemma BirthOnce(born: seq<Birth>, b: Birth)
    requires BornOnce(born) && !Born(born, b.id)
    ensures BornOnce(born + [b])
  {
    forall x | x in born ensures x.id != b.id { BornIs(born, x); }
  }

  lemma BirthOp(w: World, r: Call, b: Birth)
    requires r in w.wire && (r.creation.Some? ==> r.creation.value == b.id)
    requires Inv(w)
    ensures OpOk(w.op, w.rows, w.wire - {r}, w.answers[r.call := CREATED], w.born + [b], w.nextCall)
  {
    hide Born, Homes, ChatsOk, RowsOk, CallsOk;
    BornGrows(w.born, b);
  }

  lemma FreshNotBorn(w: World)
    requires Inv(w)
    ensures !Born(w.born, w.nextId) && w.nextId !in w.home
  {
  }

  lemma Delivered(w: World, r: Call, sameMode: bool, managed: bool)
    requires r in w.wire
    requires ChatCreate(ChatAt(w.chats, r.chat), r.creation, sameMode, managed, w.nextId).birth.Some?
    requires Inv(w)
    ensures Inv(Handle(w, r, sameMode, managed))
  {
    hide Born, OpOk, RowsOk, ChatsOk, BornOnce, ChatAt;
    var w' := Handle(w, r, sameMode, managed);
    var id := ChatCreate(ChatAt(w.chats, r.chat), r.creation, sameMode, managed, w.nextId).birth.value;
    var b := Birth(r.chat, id);
    if r.creation.Some? { NotBorn(w, r); } else { FreshNotBorn(w); }
    BirthOnce(w.born, b);
    BirthChats(w.chats, w.home, w.born, b, w'.chats[r.chat]);
    BirthRows(w, b);
    BirthOp(w, r, b);
  }

  lemma BornIs(born: seq<Birth>, b: Birth)
    requires b in born
    ensures Born(born, b.id)
  {
    assert BornAt(born, b.chat, b.id);
  }

  lemma BornGrows(born: seq<Birth>, b: Birth)
    ensures forall id :: Born(born + [b], id) <==> Born(born, id) || id == b.id
  {
    forall id ensures Born(born + [b], id) <==> Born(born, id) || id == b.id {
      if Born(born, id) {
        var c :| BornAt(born, c, id);
        assert BornAt(born + [b], c, id);
      }
      assert BornAt(born + [b], b.chat, b.id);
      if Born(born + [b], id) && id != b.id {
        var c :| BornAt(born + [b], c, id);
        assert BornAt(born, c, id);
      }
    }
  }

  lemma HandleKept(w: World, r: Call, sameMode: bool, managed: bool)
    requires r in w.wire
    requires Inv(w)
    ensures Inv(Handle(w, r, sameMode, managed))
  {
    hide *;
    if ChatCreate(ChatAt(w.chats, r.chat), r.creation, sameMode, managed, w.nextId).birth.Some? {
      Delivered(w, r, sameMode, managed);
    } else {
      TurnedDown(w, r, sameMode, managed);
    }
  }

  // ---- The gate ----

  /** A request for a row still pending, or for no row at all. */
  lemma SendKept(w: World, r: Call)
    requires w.op.Idle? && r.call == w.nextCall
    requires r.creation.Some? ==> Pending(w.rows, r.creation.value) && w.rows[r.creation.value].chat == r.chat
    requires Inv(w)
    ensures Inv(w.(op := Creating(r), wire := w.wire + {r}, nextCall := w.nextCall + 1))
  {
    hide Born, ChatsOk, BornOnce;
  }

  lemma NewRowHomes(w: World, row: Row)
    requires Homes(w.rows, w.home, w.wire, w.born, w.nextId)
    ensures Homes(w.rows[w.nextId := row], w.home[w.nextId := row.chat], w.wire, w.born, w.nextId + 1)
  {
  }

  lemma NewRowRows(w: World, row: Row)
    requires Homes(w.rows, w.home, w.wire, w.born, w.nextId) && w.nextId !in w.home && !row.recorded
    requires RowsOk(w.rows, w.recorded, w.discarded, w.home, w.born)
    requires forall id :: !PendingFor(w.rows, id, row.chat)
    ensures RowsOk(w.rows[w.nextId := row], w.recorded, w.discarded, w.home[w.nextId := row.chat], w.born)
  {
    var rows' := w.rows[w.nextId := row];
    assert forall b | b in w.born :: b.id != w.nextId;
    hide Born, Homes;
    forall id: nat | Pending(w.rows, id) ensures w.rows[id].chat != row.chat { assert !PendingFor(w.rows, id, row.chat); }
    assert forall id | Traced(w.rows, w.recorded, w.discarded, id) :: Traced(rows', w.recorded, w.discarded, id);
  }

  lemma NewHomeChats(w: World, chat: nat)
    requires ChatsOk(w.chats, w.home, w.born) && forall b | b in w.born :: b.id != w.nextId
    ensures ChatsOk(w.chats, w.home[w.nextId := chat], w.born)
  {
  }

  lemma NoteDown(w: World, chat: nat, row: Row)
    requires w.op.Idle? && row.chat == chat && !row.recorded
    requires forall id :: !PendingFor(w.rows, id, chat)
    requires Inv(w)
    ensures Inv(w.(rows := w.rows[w.nextId := row], home := w.home[w.nextId := chat], nextId := w.nextId + 1))
  {
    hide PendingFor, Born, ChatsOk, RowsOk;
    FreshNotBorn(w);
    assert forall b | b in w.born :: b.id != w.nextId;
    NewRowHomes(w, row);
    NewRowRows(w, row);
    NewHomeChats(w, chat);
    hide Born, Homes, RowsOk, ChatsOk, BornOnce, CallsOk;
  }

  lemma CreateKept(w: World, chat: nat, auth: nat, encryption: bool, now: nat, enabled: bool)
    requires Inv(w)
    ensures Inv(Create(w, chat, auth, encryption, now, enabled))
  {
    hide Inv;
    if w.op.Idle? {
      if !enabled {
        SendKept(w, Send(w, chat, encryption, None));
      } else {
        var pending := FindPending(w.rows, chat);
        if pending.Some? {
          if w.rows[pending.value].auth == auth { SendKept(w, Send(w, chat, encryption, pending)); }
        } else {
          var row := Row(chat, auth, encryption, now, false);
          NoteDown(w, chat, row);
          var w1 := w.(rows := w.rows[w.nextId := row], home := w.home[w.nextId := chat], nextId := w.nextId + 1);
          SendKept(w1, Send(w, chat, encryption, Some(w.nextId)));
        }
      }
    }
  }

  ghost predicate AllPending(rows: map<nat, Row>, ids: seq<nat>) {
    && (forall i | 0 <= i < |ids| :: Pending(rows, ids[i]))
    && (forall i, j | 0 <= i < j < |ids| :: ids[i] != ids[j])
  }

  lemma ReplayKept(w: World, ids: seq<nat>)
    requires Inv(w.(op := Idle)) && AllPending(w.rows, ids)
    ensures Inv(Replay(w, ids))
  {
    hide Born, ChatsOk;
    if ids != [] {
      var row := w.rows[ids[0]];
      var r := Send(w, row.chat, row.encryption, Some(ids[0]));
      SendKept(w.(op := Idle), r);
    }
  }

  lemma OpEnds(w: World)
    requires Inv(w)
    ensures Inv(w.(op := Idle))
  {
    hide Homes, ChatsOk, BornOnce, RowsOk, CallsOk;
  }

  lemma RecordedRows(w: World, id: nat)
    requires Pending(w.rows, id) && id in w.home && Born(w.born, id)
    requires RowsOk(w.rows, w.recorded, w.discarded, w.home, w.born)
    ensures RowsOk(w.rows[id := w.rows[id].(recorded := true)], w.recorded + {id}, w.discarded, w.home, w.born)
  {
    hide Born;
    var rows' := w.rows[id := w.rows[id].(recorded := true)];
    assert forall x | Traced(w.rows, w.recorded, w.discarded, x) :: Traced(rows', w.recorded + {id}, w.discarded, x);
  }

  lemma RecordedKept(w: World, id: nat)
    requires w.op.Idle? && Pending(w.rows, id) && Born(w.born, id)
    requires Inv(w)
    ensures Inv(Note(w, Some(id), CREATED))
  {
    hide Born, ChatsOk, BornOnce, CallsOk, RowsOk;
    RecordedRows(w, id);
  }

  lemma DiscardedRows(w: World, id: nat)
    requires Pending(w.rows, id) && id in w.home
    requires RowsOk(w.rows, w.recorded, w.discarded, w.home, w.born)
    ensures RowsOk(w.rows - {id}, w.recorded, w.discarded + {id}, w.home, w.born)
  {
    hide Born;
    assert forall x | Traced(w.rows, w.recorded, w.discarded, x) :: Traced(w.rows - {id}, w.recorded, w.discarded + {id}, x);
  }

  lemma DiscardedKept(w: World, id: nat, status: nat)
    requires w.op.Idle? && Pending(w.rows, id) && (status == EXISTS || status == MODE_CHANGED)
    requires Inv(w)
    ensures Inv(Note(w, Some(id), status))
  {
    hide Born, ChatsOk, BornOnce, CallsOk, RowsOk;
    DiscardedRows(w, id);
  }

  lemma HeardKept(w: World)
    requires Inv(w)
    ensures Inv(Answered(w))
  {
    hide Homes, ChatsOk, RowsOk, CallsOk, BornOnce, Note, Replay, Born;
    if !w.op.Idle? && w.op.wait.call in w.answers {
      var status := w.answers[w.op.wait.call];
      var w0 := w.(op := Idle);
      OpEnds(w);
      NoteIs(w, status);
      if w.op.wait.creation.Some? {
        var id := w.op.wait.creation.value;
        if status == CREATED { RecordedKept(w0, id); }
        else if status == EXISTS || status == MODE_CHANGED { DiscardedKept(w0, id, status); }
      }
      if w.op.Recovering? && (status == CREATED || status == EXISTS || status == MODE_CHANGED) {
        var c := w.op.wait.creation;
        forall i | 0 <= i < |w.op.rest| ensures Pending(Note(w, c, status).rows, w.op.rest[i]) {
          StillPending(w, c, status, w.op.rest[i]);
        }
        ReplayKept(Note(w, c, status), w.op.rest);
      }
    }
  }

  lemma NoteIs(w: World, status: nat)
    requires !w.op.Idle?
    ensures var c := w.op.wait.creation;
      && Note(w, c, status).(op := Idle) == Note(w.(op := Idle), c, status)
      && (c.None? || (status != CREATED && status != EXISTS && status != MODE_CHANGED) ==> Note(w, c, status) == w)
  {
    var c, w0 := w.op.wait.creation, w.(op := Idle);
    if c.Some? && c.value in w.rows && (status == CREATED || status == EXISTS || status == MODE_CHANGED) {
      assert w0.rows == w.rows;
    }
  }

  lemma StillPending(w: World, creation: Option<nat>, status: nat, id: nat)
    requires Pending(w.rows, id) && creation != Some(id)
    ensures Pending(Note(w, creation, status).rows, id)
  {
  }

  lemma StoppedKept(w: World, dropped: bool)
    requires Inv(w)
    ensures Inv(Lost(w, dropped))
  {
    hide Born, ChatsOk, BornOnce;
  }

  lemma ErasedKept(w: World, chat: nat, back: bool)
    requires Inv(w)
    ensures Inv(w.(chats := w.chats[chat := ChatAt(w.chats, chat).(channel := if back then ChatAt(w.chats, chat).archived else None)]))
  {
    hide Homes, RowsOk, CallsOk, BornOnce, OpOk;
  }

  lemma CleanedKept(w: World, before: nat)
    requires Inv(w)
    ensures Inv(Apply(w, CleanedUp(before)))
  {
    hide Born, ChatsOk, BornOnce;
    var w' := Apply(w, CleanedUp(before));
    assert forall id: nat :: Pending(w'.rows, id) <==> Pending(w.rows, id);
    assert forall id | Traced(w.rows, w.recorded, w.discarded, id) :: Traced(w'.rows, w'.recorded, w'.discarded, id);
  }

  lemma EventKept(w: World, ev: Event)
    requires Inv(w)
    ensures Inv(Apply(w, ev))
  {
    hide Inv, Answered, ChatAt, Create, Handle, Lost;
    match ev
    case CreateChat(chat, auth, encryption, now, enabled) => CreateKept(w, chat, auth, encryption, now, enabled);
    case RecoverRows(ids) =>
      OpEnds(w);
      if w.op.Idle? && AllPending(w.rows, ids) { ReplayKept(w, ids); }
    case ChatTakes(r, sameMode, managed) => if r in w.wire { HandleKept(w, r, sameMode, managed); }
    case GateHears => HeardKept(w);
    case GateStops(dropped) => StoppedKept(w, dropped);
    case ChatErased(chat) => ErasedKept(w, chat, false);
    case ChatRestored(chat) => ErasedKept(w, chat, true);
    case CleanedUp(before) => CleanedKept(w, before);
  }

  lemma {:induction false} RunKept(w: World, evs: seq<Event>)
    requires Inv(w)
    ensures Inv(Run(w, evs))
    decreases |evs|
  {
    hide Apply, Inv;
    if evs != [] {
      EventKept(w, evs[0]);
      RunKept(Apply(w, evs[0]), evs[1..]);
    }
  }

  lemma InitHolds(w: World)
    requires Init(w)
    ensures Inv(w)
  {
  }
}
