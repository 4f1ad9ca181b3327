/** The creation journal: a row kept by the creation gate, a chat created in another
    object, and replays after crashes on either side. */
module Journal {
  import opened Options

  /** A journal row: recorded once the chat is known to have been created. */
  datatype Row = Row(chat: nat, auth: nat, encryption: bool, created: nat, recorded: bool)

  /** A chat object. `receipts` outlive the chat; `reserved` once it is managed. */
  datatype Chat = Chat(channel: Option<nat>, archived: Option<nat>, receipts: set<nat>, reserved: bool)

  const NO_CHAT := Chat(None, None, {}, false)

  /** One `_create` request from the gate. */
  datatype Call = Call(call: nat, chat: nat, encryption: bool, creation: Option<nat>)

  datatype Op =
    | Idle
    | Creating(wait: Call)
    | Recovering(wait: Call, rest: seq<nat>)

  /** A creation that took place: which chat, under which generation. */
  datatype Birth = Birth(chat: nat, id: nat)

  /** The last four fields only remember: which chat each journalled creation is for,
      what was ever recorded or discarded, and what was born. */
  datatype World = World(rows: map<nat, Row>, op: Op, chats: map<nat, Chat>, wire: set<Call>, answers: map<nat, nat>,
    nextId: nat, nextCall: nat,
    home: map<nat, nat>, recorded: set<nat>, discarded: set<nat>, born: seq<Birth>)

  const CREATED := 204
  const EXISTS := 409
  const RESERVED := 410
  const MODE_CHANGED := 412

  function ChatAt(chats: map<nat, Chat>, id: nat): Chat { if id in chats then chats[id] else NO_CHAT }

  // ---- The chat ----

  datatype Reply = Reply(chat: Chat, status: nat, birth: Option<nat>)

  /** `_create`: a replay of a creation that took place is acknowledged and changes
      nothing, whatever became of the chat. `managed` says whether management is on,
      which gives the new chat a lifecycle record. */
  function ChatCreate(c: Chat, creation: Option<nat>, sameMode: bool, managed: bool, anonymous: nat): Reply {
    if creation.Some? && creation.value in c.receipts then Reply(c, CREATED, None)
    else if !sameMode then Reply(c, MODE_CHANGED, None)
    else if c.channel.Some? then Reply(c, if creation == c.channel then CREATED else EXISTS, None)
    else if c.reserved then Reply(c, RESERVED, None)
    else
      var id := if creation.Some? then creation.value else anonymous;
      Reply(Chat(Some(id), if managed then Some(id) else None, if creation.Some? then c.receipts + {id} else c.receipts, managed), CREATED, Some(id))
  }

  function Handle(w: World, r: Call, sameMode: bool, managed: bool): World
    requires r in w.wire
  {
    var reply := ChatCreate(ChatAt(w.chats, r.chat), r.creation, sameMode, managed, w.nextId);
    w.(chats := w.chats[r.chat := reply.chat],
       wire := w.wire - {r},
       answers := w.answers[r.call := reply.status],
       nextId := w.nextId + 1,
       born := if reply.birth.Some? then w.born + [Birth(r.chat, reply.birth.value)] else w.born)
  }

  // ---- The gate ----

  predicate Pending(rows: map<nat, Row>, id: nat) { id in rows && !rows[id].recorded }

  predicate PendingFor(rows: map<nat, Row>, id: nat, chat: nat) { Pending(rows, id) && rows[id].chat == chat }

  ghost function FindPending(rows: map<nat, Row>, chat: nat): (r: Option<nat>)
    ensures r.Some? ==> PendingFor(rows, r.value, chat)
    ensures r.None? ==> forall id :: !PendingFor(rows, id, chat)
  {
    if id :| PendingFor(rows, id, chat) then Some(id) else None
  }

  function Send(w: World, chat: nat, encryption: bool, creation: Option<nat>): Call {
    Call(w.nextCall, chat, encryption, creation)
  }

  /** `create` up to its request: note the creation first, or take up the one still
      pending for the same chat and credential. */
  ghost function Create(w: World, chat: nat, auth: nat, encryption: bool, now: nat, enabled: bool): World {
    if !w.op.Idle? then w
    else if !enabled then
      var r := Send(w, chat, encryption, None);
      w.(op := Creating(r), wire := w.wire + {r}, nextCall := w.nextCall + 1)
    else
      var pending := FindPending(w.rows, chat);
      if pending.Some? then
        if w.rows[pending.value].auth != auth then w
        else
          var r := Send(w, chat, encryption, pending);
          w.(op := Creating(r), wire := w.wire + {r}, nextCall := w.nextCall + 1)
      else
        var r := Send(w, chat, encryption, Some(w.nextId));
        w.(rows := w.rows[w.nextId := Row(chat, auth, encryption, now, false)], home := w.home[w.nextId := chat],
           op := Creating(r), wire := w.wire + {r}, nextId := w.nextId + 1, nextCall := w.nextCall + 1)
  }

  /** The next row of a recovery is replayed, or the recovery is over. */
  function Replay(w: World, ids: seq<nat>): World {
    if ids == [] || ids[0] !in w.rows then w.(op := Idle)
    else
      var row := w.rows[ids[0]];
      var r := Send(w, row.chat, row.encryption, Some(ids[0]));
      w.(op := Recovering(r, ids[1..]), wire := w.wire + {r}, nextCall := w.nextCall + 1)
  }

  function Recover(w: World, ids: seq<nat>): World {
    if !w.op.Idle? || !(forall i | 0 <= i < |ids| :: Pending(w.rows, ids[i])) || !(forall i, j | 0 <= i < j < |ids| :: ids[i] != ids[j])
    then w
    else Replay(w, ids)
  }

  /** What the gate notes down once the chat has answered. */
  function Note(w: World, creation: Option<nat>, status: nat): World {
    if creation.None? || creation.value !in w.rows then w
    else if status == CREATED then
      w.(rows := w.rows[creation.value := w.rows[creation.value].(recorded := true)], recorded := w.recorded + {creation.value})
    else if status == EXISTS || status == MODE_CHANGED then
      w.(rows := w.rows - {creation.value}, discarded := w.discarded + {creation.value})
    else w
  }

  function Answered(w: World): World {
    if w.op.Idle? || w.op.wait.call !in w.answers then w
    else
      var status := w.answers[w.op.wait.call];
      var w1 := Note(w, w.op.wait.creation, status);
      if w.op.Creating? || (status != CREATED && status != EXISTS && status != MODE_CHANGED) then w1.(op := Idle)
      else Replay(w1, w.op.rest)
  }

  /** The gate crashes or gives up waiting; its request is gone with it, or still
      on its way. */
  function Lost(w: World, dropped: bool): World {
    if w.op.Idle? then w
    else w.(op := Idle, wire := if dropped then w.wire - {w.op.wait} else w.wire)
  }

  // ---- Runs ----

  datatype Event =
    | CreateChat(chat: nat, auth: nat, encryption: bool, now: nat, enabled: bool)
    | RecoverRows(ids: seq<nat>)
    | ChatTakes(r: Call, sameMode: bool, managed: bool)
    | GateHears
    | GateStops(dropped: bool)
    | ChatErased(chat: nat)
    | ChatRestored(chat: nat)
    | CleanedUp(before: nat)

  ghost function Apply(w: World, ev: Event): World {
    match ev
    case CreateChat(chat, auth, encryption, now, enabled) => Create(w, chat, auth, encryption, now, enabled)
    case RecoverRows(ids) => Recover(w, ids)
    case ChatTakes(r, sameMode, managed) => if r in w.wire then Handle(w, r, sameMode, managed) else w
    case GateHears => Answered(w)
    case GateStops(dropped) => Lost(w, dropped)
    case ChatErased(chat) => w.(chats := w.chats[chat := ChatAt(w.chats, chat).(channel := None)])
    case ChatRestored(chat) =>
      if ChatAt(w.chats, chat).reserved then w.(chats := w.chats[chat := ChatAt(w.chats, chat).(channel := ChatAt(w.chats, chat).archived)]) else w
    case CleanedUp(before) => w.(rows := map id | id in w.rows && !(w.rows[id].recorded && w.rows[id].created < before) :: w.rows[id])
  }

  ghost function Run(w: World, evs: seq<Event>): World
    decreases |evs|
  {
    if evs == [] then w else Run(Apply(w, evs[0]), evs[1..])
  }

  /** Nothing journalled yet, and no chat known. */
  ghost predicate Init(w: World) {
    && w.rows == map[] && w.op.Idle? && w.chats == map[] && w.wire == {} && w.answers == map[]
    && w.home == map[] && w.recorded == {} && w.discarded == {} && w.born == []
  }
}
