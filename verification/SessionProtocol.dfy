/** One session against the compare-and-swap log of the Go server, with other
    writers, polls, lost answers and deletion. */
module SessionProtocol {
  import opened Options
  import opened Session

  /** A committed event: its sender name and, if this session wrote it, by which call. */
  datatype Entry = Entry(token: nat, name: string, call: Option<nat>)

  /** A request on its way; the server takes each one at most once. */
  datatype Post = Post(prev: int, token: nat, from: string, call: nat)

  datatype Outcome = Committed | Behind | Refused

  /** `sent` is every request ever made, `wire` those the server may still take. */
  datatype System = System(c: Client, log: seq<Entry>, alive: bool, sent: set<Post>, wire: set<Post>,
    outcome: map<nat, Outcome>, nextToken: nat, nextCall: nat)

  function Page(log: seq<Entry>, a: nat, b: nat): (p: seq<Envelope>)
    requires a <= b <= |log|
    ensures |p| == b - a && forall i | 0 <= i < |p| :: p[i] == Envelope(a + i, log[a + i].token)
    decreases b - a
  {
    if a == b then [] else [Envelope(a, log[a].token)] + Page(log, a + 1, b)
  }

  datatype Answer = Ok | ConflictTo(upto: nat) | No4xx | No503 | Missing404 | Unclear

  datatype Event =
    | Rename(name: string)
    | Append(from: string)
    | StartSeal(call: nat)
    | Sealed(call: nat)
    | Answered(call: nat, answer: Answer)
    | AfterPage(call: nat, threw: bool)
    | Polled(since: int, upto: nat)      // a poll made at an earlier cursor is answered
    | NextPage
    | NextEvent
    | EventOpened
    | EventFailed
    | ServerTakes(post: Post, refuse: bool)
    | OtherWrites(name: string)
    | ChannelDeleted
    | FoundGone

  /** `Append` on the server: refused, conflicting, or committed at the head. */
  function Take(s: System, p: Post, refuse: bool): System {
    var s1 := s.(wire := s.wire - {p});
    if refuse || !s.alive then s1.(outcome := s.outcome[p.token := Refused])
    else if p.prev != |s.log| - 1 then s1.(outcome := s.outcome[p.token := Behind])
    else s1.(outcome := s.outcome[p.token := Committed], log := s.log + [Entry(p.token, p.from, Some(p.call))])
  }

  /** Which answers the server's behaviour allows for a post: 200 only for a
      committed one, 409 only for one that was behind, other refusals only for one
      not committed. Once the channel is gone even a committed post can be answered
      404, and any answer can be lost. */
  predicate Honest(s: System, a: Attempt, answer: Answer) {
    var o := if a.token in s.outcome then Some(s.outcome[a.token]) else None;
    match answer
    case Ok => o == Some(Committed)
    case ConflictTo(upto) => o == Some(Behind) && 0 <= a.pos <= upto <= |s.log|
    case No4xx => o == Some(Refused)
    case No503 => o == Some(Refused)
    case Missing404 => !s.alive
    case Unclear => true
  }

  function ReplyOf(s: System, a: Attempt, answer: Answer): Reply
    requires Honest(s, a, answer)
  {
    match answer
    case Ok => Accepted
    case ConflictTo(upto) => Conflict(Page(s.log, a.pos, upto))
    case No4xx => Rejected
    case No503 => Restarting
    case Missing404 => Rejected
    case Unclear => Ambiguous
  }

  function Apply(s: System, ev: Event): System {
    match ev
    case Rename(name) => s.(c := SetName(s.c, name))
    case Append(from) => s.(c := CallAppend(s.c, s.nextCall, from), nextCall := s.nextCall + 1)
    case StartSeal(id) => s.(c := BeginSeal(s.c, id))
    case Sealed(id) =>
      var c' := SendPost(s.c, id, s.nextToken);
      if id in c'.calls && c'.calls[id].Posting? && id in s.c.calls && s.c.calls[id].Sealing?
      then
        var p := Post(s.c.calls[id].prev, s.nextToken, s.c.calls[id].sender, id);
        s.(c := c', nextToken := s.nextToken + 1, sent := s.sent + {p}, wire := s.wire + {p})
      else s.(c := c')
    case Answered(id, answer) =>
      if id in s.c.calls && s.c.calls[id].Posting? && Honest(s, s.c.calls[id].attempt, answer)
      then s.(c := TakeReply(s.c, id, ReplyOf(s, s.c.calls[id].attempt, answer))) else s
    case AfterPage(id, threw) => s.(c := PageDelivered(s.c, id, threw))
    case Polled(since, upto) =>
      if -1 <= since <= s.c.last && since + 1 <= upto <= |s.log| then s.(c := Enqueue(s.c, Page(s.log, since + 1, upto))) else s
    case NextPage => s.(c := TakePage(s.c))
    case NextEvent => s.(c := ObserveNext(s.c))
    case EventOpened => s.(c := Opened(s.c))
    case EventFailed => s.(c := OpenFailed(s.c))
    case ServerTakes(post, refuse) => if post in s.wire then Take(s, post, refuse) else s
    case OtherWrites(name) =>
      if s.alive then s.(log := s.log + [Entry(s.nextToken, name, None)], nextToken := s.nextToken + 1) else s
    case ChannelDeleted => s.(alive := false)
    case FoundGone => if s.alive then s else s.(c := Discard(s.c))
  }

  function Run(s: System, evs: seq<Event>): System
    decreases |evs|
  {
    if evs == [] then s else Run(Apply(s, evs[0]), evs[1..])
  }

  // ---- What the proofs say of one call and of one request ----

  predicate IsPosting(s: System, id: nat) { id in s.c.calls && s.c.calls[id].Posting? }

  predicate PostingAs(s: System, id: nat, a: Attempt) { IsPosting(s, id) && s.c.calls[id].attempt == a }

  predicate HasCommitted(s: System, token: nat) { token in s.outcome && s.outcome[token] == Committed }

  predicate TurnedDown(s: System, token: nat) { token in s.outcome && s.outcome[token] != Committed }

  /** The envelope is one of the log. */
  predicate Stored(log: seq<Entry>, e: Envelope) { e.pos < |log| && log[e.pos].token == e.token }

  /** A page just opened on a channel others may already have written to. */
  ghost predicate Init(s: System) {
    && !s.c.locked && s.c.pending == 0 && s.c.attempts == [] && s.c.last == -1 && s.c.queue == [] && s.c.current.None?
    && s.c.enqueued == 0 && s.c.delivered == 0 && !s.c.gone && s.c.calls == map[] && s.c.presented == []
    && s.sent == {} && s.wire == {} && s.outcome == map[] && s.alive
    && (forall i | 0 <= i < |s.log| :: s.log[i].call.None? && s.log[i].token < s.nextToken)
  }
}
