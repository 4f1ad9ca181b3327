/** The browser session: the delivered cursor, serialized deliveries, local post
    evidence and the compare-and-swap retry, cut at its awaits. */
module Session {
  import opened Options

  /** A stored envelope as the session sees it; the token stands for its fresh
      nonce and ciphertext. */
  datatype Envelope = Envelope(pos: nat, token: nat)

  datatype Attempt = Attempt(pos: int, token: nat, from: string)

  /** Where one call of `append` stands. `from` is the name it was given. */
  datatype Call =
    | Queued(from: string, tries: nat, until: nat)              // awaits the deliveries queued so far
    | Sealing(from: string, tries: nat, prev: int, sender: string)
    | Posting(from: string, tries: nat, attempt: Attempt)
    | Delivering(from: string, tries: nat, until: nat)          // awaits the delivery of a 409 page
    | Returned
    | Thrown

  /** One delivery in progress: the event being opened and those after it. */
  datatype Delivery = Delivery(opening: Option<Envelope>, rest: seq<Envelope>)

  datatype Client = Client(name: string, locked: bool, pending: nat, attempts: seq<Attempt>, last: int,
    queue: seq<seq<Envelope>>, current: Option<Delivery>, enqueued: nat, delivered: nat, gone: bool,
    calls: map<nat, Call>, presented: seq<Envelope>)

  const TRIES := 50

  function SetName(c: Client, name: string): Client {
    if c.locked || c.pending > 0 || c.gone then c else c.(name := name)
  }

  function LockName(c: Client, from: string): Client {
    if c.locked then c else c.(locked := true, name := from, attempts := [])
  }

  predicate Matches(a: Attempt, e: Envelope) { a.pos == e.pos && a.token == e.token }

  function Find(attempts: seq<Attempt>, e: Envelope): Option<Attempt> {
    if attempts == [] then None
    else if Matches(attempts[0], e) then Some(attempts[0])
    else Find(attempts[1..], e)
  }

  function After(attempts: seq<Attempt>, pos: int): (r: seq<Attempt>)
    ensures forall a :: a in r <==> a in attempts && a.pos > pos
  {
    if attempts == [] then []
    else (if attempts[0].pos > pos then [attempts[0]] else []) + After(attempts[1..], pos)
  }

  function Without(attempts: seq<Attempt>, a: Attempt): (r: seq<Attempt>)
    ensures forall x :: x in r <==> x in attempts && x != a
  {
    if attempts == [] then []
    else (if attempts[0] != a then [attempts[0]] else []) + Without(attempts[1..], a)
  }

  function Observe(c: Client, e: Envelope): Client {
    var own := Find(c.attempts, e);
    var c' := if own.Some? then LockName(c, own.value.from) else c;
    c'.(attempts := After(c'.attempts, e.pos))
  }

  // ---- deliver ----

  function Enqueue(c: Client, page: seq<Envelope>): Client {
    c.(queue := c.queue + [page], enqueued := c.enqueued + 1)
  }

  /** The next queued page, once the one before it is done. */
  function TakePage(c: Client): Client {
    if c.current.Some? || c.queue == [] then c
    else c.(current := Some(Delivery(None, c.queue[0])), queue := c.queue[1..])
  }

  /** The loop of one delivery up to its next `await open`. */
  function ObserveNext(c: Client): Client {
    if c.current.None? || c.current.value.opening.Some? then c
    else if c.current.value.rest == [] then c.(current := None, delivered := c.delivered + 1)
    else
      var e := c.current.value.rest[0];
      var rest := c.current.value.rest[1..];
      Observe(c, e).(current := Some(Delivery(if e.pos <= c.last then None else Some(e), rest)))
  }

  /** The event was opened: only now does the cursor pass it. */
  function Opened(c: Client): Client {
    if c.current.None? || c.current.value.opening.None? then c
    else
      var e := c.current.value.opening.value;
      c.(last := e.pos, presented := c.presented + [e], current := Some(c.current.value.(opening := None)))
  }

  /** `open` threw: the rest of the page is dropped, the queue goes on. */
  function OpenFailed(c: Client): Client {
    if c.current.None? || c.current.value.opening.None? then c
    else c.(current := None, delivered := c.delivered + 1)
  }

  // ---- append ----

  function CallAppend(c: Client, id: nat, from: string): Client {
    if id in c.calls then c
    else c.(pending := c.pending + 1, calls := c.calls[id := Queued(from, 0, c.enqueued)])
  }

  function Settle(c: Client, id: nat, how: Call): Client {
    c.(pending := if c.pending > 0 then c.pending - 1 else 0, calls := c.calls[id := how])
  }

  function Retry(c: Client, id: nat, from: string, tries: nat): Client {
    if tries + 1 >= TRIES then Settle(c, id, Thrown)
    else c.(calls := c.calls[id := Queued(from, tries + 1, c.enqueued)])
  }

  /** After `await queue`: fix the cursor and the sender, and start sealing. */
  function BeginSeal(c: Client, id: nat): Client {
    if id !in c.calls || !c.calls[id].Queued? || c.delivered < c.calls[id].until then c
    else if c.gone then Settle(c, id, Thrown)
    else
      var k := c.calls[id];
      c.(calls := c.calls[id := Sealing(k.from, k.tries, c.last, if c.locked then c.name else k.from)])
  }

  /** After `await seal`: start over if the name was locked to another meanwhile,
      else note the attempt as evidence and post it. */
  function SendPost(c: Client, id: nat, token: nat): Client {
    if id !in c.calls || !c.calls[id].Sealing? then c
    else
      var k := c.calls[id];
      if c.gone then Settle(c, id, Thrown)
      else if c.locked && k.sender != c.name then Retry(c, id, k.from, k.tries)
      else
        var a := Attempt(k.prev + 1, token, k.sender);
        c.(calls := c.calls[id := Posting(k.from, k.tries, a)],
           attempts := if !c.locked && a.pos > c.last then c.attempts + [a] else c.attempts)
  }

  datatype Reply =
    | Accepted                          // 2xx
    | Conflict(page: seq<Envelope>)     // 409 with the events after the attempted cursor
    | Rejected                          // any other 4xx
    | Restarting                        // 503 that says the post was not taken
    | Ambiguous                         // any other status, or no answer at all

  function TakeReply(c: Client, id: nat, r: Reply): Client {
    if id !in c.calls || !c.calls[id].Posting? then c
    else
      var k := c.calls[id];
      match r
      case Accepted => Settle(LockName(c, k.attempt.from), id, Returned)
      case Conflict(page) =>
        var c1 := Enqueue(c.(attempts := Without(c.attempts, k.attempt)), page);
        c1.(calls := c1.calls[id := Delivering(k.from, k.tries, c1.enqueued)])
      case Rejected => Settle(c.(attempts := Without(c.attempts, k.attempt)), id, Thrown)
      case Restarting => Settle(c.(attempts := Without(c.attempts, k.attempt)), id, Thrown)
      case Ambiguous => Settle(c, id, Thrown)
  }

  /** The 409 page has been delivered, or its delivery threw. */
  function PageDelivered(c: Client, id: nat, threw: bool): Client {
    if id !in c.calls || !c.calls[id].Delivering? || c.delivered < c.calls[id].until then c
    else if threw then Settle(c, id, Thrown)
    else Retry(c, id, c.calls[id].from, c.calls[id].tries)
  }

  /** The channel was found missing or deleted. */
  function Discard(c: Client): Client {
    c.(gone := true, attempts := [])
  }
}
