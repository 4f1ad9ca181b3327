/** The gate and the chat as the objects that keep their tables, cut where they
    wait for each other. */
module CreationGates {
  import opened Options
  import opened Journal
  import opened JournalProofs

  class ChatObject {
    var channel: Option<nat>
    var archived: Option<nat>
    var receipts: set<nat>
    var reserved: bool

    ghost function View(): Chat
      reads this
    {
      Chat(channel, archived, receipts, reserved)
    }

    /** The `_create` branch of the chat. */
    method Create(creation: Option<nat>, sameMode: bool, managed: bool, anonymous: nat) returns (status: nat)
      modifies this
      ensures var reply := ChatCreate(old(View()), creation, sameMode, managed, anonymous);
        View() == reply.chat && status == reply.status
      ensures creation.Some? && creation.value in old(receipts) ==> View() == old(View()) && status == CREATED
      ensures creation.Some? && status == CREATED && old(channel).None? ==> creation.value in receipts
    {
      if creation.Some? && creation.value in receipts { return CREATED; }
      if !sameMode { return MODE_CHANGED; }
      if channel.Some? {
        if creation == channel { return CREATED; }
        return EXISTS;
      }
      if reserved { return RESERVED; }
      var id := if creation.Some? then creation.value else anonymous;
      channel, archived := Some(id), if managed then Some(id) else None;
      if creation.Some? { receipts := receipts + {id}; }
      reserved := managed;
      return CREATED;
    }
  }

  class CreationGate {
    // The journal and the operation under way
    var rows: map<nat, Row>
    var op: Op
    var nextId: nat
    var nextCall: nat
    // Outside: chats, requests on their way, answers
    var chats: map<nat, Chat>
    var wire: set<Call>
    var answers: map<nat, nat>
    ghost var home: map<nat, nat>
    ghost var recorded: set<nat>
    ghost var discarded: set<nat>
    ghost var born: seq<Birth>

    ghost function View(): World
      reads this
    {
      World(rows, op, chats, wire, answers, nextId, nextCall, home, recorded, discarded, born)
    }

    ghost predicate Valid()
      reads this
    {
      Inv(View())
    }

    method SendFor(chat: nat, encryption: bool, creation: Option<nat>) returns (r: Call)
      modifies this`wire, this`nextCall
      ensures r == Call(old(nextCall), chat, encryption, creation)
      ensures wire == old(wire) + {r} && nextCall == old(nextCall) + 1
    {
      r := Call(nextCall, chat, encryption, creation);
      wire, nextCall := wire + {r}, nextCall + 1;
    }

    /** `create` up to its request to the chat. */
    method Create(chat: nat, auth: nat, encryption: bool, now: nat, enabled: bool) returns (refused: bool)
      requires Valid()
      modifies this
      ensures Valid() && View() == Journal.Create(old(View()), chat, auth, encryption, now, enabled)
      ensures refused ==> View() == old(View())
    {
      hide Homes, ChatsOk, RowsOk, BornOnce, CallsOk, OpOk, FindPending;
      CreateKept(View(), chat, auth, encryption, now, enabled);
      if op != Idle { return true; }
      var creation: Option<nat> := None;
      if enabled {
        var pending := PendingRow(chat);
        if pending.Some? {
          if rows[pending.value].auth != auth { return true; }
          creation := pending;
        } else {
          rows, home := rows[nextId := Row(chat, auth, encryption, now, false)], home[nextId := chat];
          creation, nextId := Some(nextId), nextId + 1;
        }
      }
      var r := SendFor(chat, encryption, creation);
      op := Creating(r);
      return false;
    }

    /** The one pending row of a chat. */
    method PendingRow(chat: nat) returns (r: Option<nat>)
      requires Valid()
      ensures r == FindPending(rows, chat)
    {
      if id :| id in rows && !rows[id].recorded && rows[id].chat == chat {
        assert PendingFor(rows, id, chat);
        OnePending(View(), chat, id);
        return Some(id);
      }
      assert forall id: nat :: !PendingFor(rows, id, chat);
      return None;
    }

    method ReplayNext(ids: seq<nat>)
      modifies this`op, this`wire, this`nextCall
      ensures View() == Replay(old(View()), ids)
    {
      if ids == [] || ids[0] !in rows {
        op := Idle;
      } else {
        var row := rows[ids[0]];
        var r := SendFor(row.chat, row.encryption, Some(ids[0]));
        op := Recovering(r, ids[1..]);
      }
    }

    /** `recoverCreations`, from the rows its query returned. */
    method StartRecovery(ids: seq<nat>)
      requires Valid() && op == Idle && AllPending(rows, ids)
      modifies this
      ensures Valid() && View() == Recover(old(View()), ids)
    {
      ReplayKept(View(), ids);
      ReplayNext(ids);
    }

    method NoteAnswer(creation: Option<nat>, status: nat)
      modifies this`rows, this`recorded, this`discarded
      ensures View() == Note(old(View()), creation, status)
    {
      if creation.None? || creation.value !in rows { return; }
      var id := creation.value;
      if status == CREATED {
        rows, recorded := rows[id := rows[id].(recorded := true)], recorded + {id};
      } else if status == EXISTS || status == MODE_CHANGED {
        rows, discarded := rows - {id}, discarded + {id};
      }
    }

    /** What follows the chat's answer, in `create` or in the recovery loop. */
    method Answer()
      requires Valid()
      modifies this
      ensures Valid() && View() == Answered(old(View()))
    {
      hide Inv, Note, Replay;
      HeardKept(View());
      if op == Idle || op.wait.call !in answers { return; }
      var wait, status := op.wait, answers[op.wait.call];
      NoteAnswer(wait.creation, status);
      if op.Creating? || (status != CREATED && status != EXISTS && status != MODE_CHANGED) {
        op := Idle;
      } else {
        ReplayNext(op.rest);
      }
    }
  }

  lemma OnePending(w: World, chat: nat, id: nat)
    requires PendingFor(w.rows, id, chat)
    requires Inv(w)
    ensures FindPending(w.rows, chat) == Some(id)
  {
    var other := FindPending(w.rows, chat);
    if other.Some? { assert Pending(w.rows, other.value); }
  }
}
