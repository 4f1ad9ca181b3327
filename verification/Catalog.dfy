/** The management catalog as a replica of a resource's record: registrations can
    be delayed, duplicated, reordered, time out, or arrive long after the sender
    gave up. */
module Catalog {
  import opened Options
  import opened Backup
  import opened Lifecycle
  import opened LifecycleFrames

  /** `wire` holds every registration ever sent: each may still arrive, any number
      of times. `arrived` are those the catalog has processed at least once,
      `sending` the one whose answer the resource waits for. */
  datatype Replica = Replica(w: World, sending: Option<Record>, wire: set<Record>, arrived: set<Record>,
    catalog: Option<Record>, past: set<Record>)

  datatype Move =
    | Own(event: Event)
    | Send
    | Arrive(r: Record)
    | Reply
    | GiveUp

  /** The `/register` upsert: only a newer version replaces the stored row. */
  function Register(catalog: Option<Record>, r: Record): Option<Record> {
    if catalog.None? || r.version > catalog.value.version then Some(r) else catalog
  }

  /** An accepted registration clears the dirty mark only if nothing was saved since. */
  function Synced(w: World, r: Record): World {
    if w.o.record.version == r.version then w.(o := w.o.(dirty := 0)) else w
  }

  ghost function Next(s: Replica, m: Move): Replica {
    match m
    case Own(ev) => var w' := Apply(s.w, ev); s.(w := w', past := s.past + {w'.o.record})
    case Send =>
      if 0 < s.w.o.dirty && s.sending.None?
      then s.(sending := Some(s.w.o.record), wire := s.wire + {s.w.o.record}) else s
    case Arrive(r) =>
      if r in s.wire then s.(catalog := Register(s.catalog, r), arrived := s.arrived + {r}) else s
    case Reply =>
      if s.sending.Some? && s.sending.value in s.arrived
      then s.(w := Synced(s.w, s.sending.value), sending := None) else s
    case GiveUp => s.(sending := None)
  }

  ghost function Moves(s: Replica, ms: seq<Move>): Replica
    decreases |ms|
  {
    if ms == [] then s else Moves(Next(s, ms[0]), ms[1..])
  }

  ghost predicate Fresh(s: Replica) {
    && Init(s.w) && s.sending.None? && s.wire == {} && s.arrived == {} && s.catalog.None?
    && s.past == {s.w.o.record}
  }

  // ---- Every change of the record has a new version ----

  lemma EventMoves(w: World, ev: Event)
    ensures Moved(w, Apply(w, ev))
  {
    hide Start, Resume, Failed, WellKept, Schema, Overdue;
    if IsRequest(ev) {
      RequestQuiet(w, ev);
    } else {
      StartStepped(w);
      ResumeStepped(w);
      MoversStep(w);
    }
  }

  // ---- The replica ----

  ghost predicate Consistent(s: Replica) {
    && s.w.o.record in s.past
    && (forall a, b | a in s.past && b in s.past && a.version == b.version :: a == b)
    && (forall a | a in s.past :: a.version <= s.w.o.record.version)
    && s.wire <= s.past && s.arrived <= s.wire
    && (s.sending.Some? ==> s.sending.value in s.wire)
    && (s.catalog.Some? ==> s.catalog.value in s.past)
    && (forall a | a in s.arrived :: s.catalog.Some? && a.version <= s.catalog.value.version)
    && (s.w.o.dirty == 0 ==> s.catalog == Some(s.w.o.record))
  }

  lemma MoveKept(s: Replica, m: Move)
    requires Consistent(s)
    ensures Consistent(Next(s, m))
  {
    hide Apply;
    match m {
      case Own(ev) => EventMoves(s.w, ev);
      case Reply =>
        if s.sending.Some? && s.sending.value in s.arrived && s.w.o.record.version == s.sending.value.version {
          assert s.sending.value == s.w.o.record;
          assert s.catalog.value.version == s.w.o.record.version;
        }
      case _ =>
    }
  }

  lemma {:induction false} MovesKept(s: Replica, ms: seq<Move>)
    requires Consistent(s)
    ensures Consistent(Moves(s, ms))
    decreases |ms|
  {
    hide Next, Consistent;
    if ms != [] {
      MoveKept(s, ms[0]);
      MovesKept(Next(s, ms[0]), ms[1..]);
    }
  }

  /** Whatever the network does, the catalog holds some past value of the record at
      that value's version, never a newer one, and when the resource considers
      itself synced the catalog holds the current record. */
  lemma CatalogIsReplica(s: Replica, ms: seq<Move>)
    requires Fresh(s)
    ensures var s' := Moves(s, ms);
            && (s'.catalog.Some? ==> s'.catalog.value in s'.past && s'.catalog.value.version <= s'.w.o.record.version)
            && (s'.w.o.dirty == 0 ==> s'.catalog == Some(s'.w.o.record))
  {
    hide Moves;
    MovesKept(s, ms);
  }
}
