/** Exporting a wiki: every file is read once for its announced size and once more
    while it is sent, in stretches, while others may edit the wiki, cancel the export
    or let it expire. Each read first checks the version. */
module Export {
  import opened Options
  import opened Zip
  import opened ZipProofs

  /** What an export makes of a wiki's content: the files of the bundle, in order, and
      their bytes. `fold` lower-cases a name. */
  datatype Bundle<!C> = Bundle(list: C -> seq<Bytes>, render: (C, Bytes) -> Bytes, fold: Bytes -> Bytes)

  datatype Announced = Announced(name: Bytes, size: nat)

  /** `sent` are the files sent in full, `part` the stretches of the next one. */
  datatype Slot =
    | Stopped
    | Preparing(names: seq<Bytes>, measured: seq<Announced>)
    | Ready(files: seq<Announced>, bytes: nat)
    | Downloading(files: seq<Announced>, bytes: nat, sent: seq<Entry>, part: seq<Bytes>)
    | Complete(bytes: nat, out: Bytes)

  /** Every change of the content has a new version. `at` only remembers the content
      when the export began. */
  datatype Exporter<C> = Exporter(content: C, version: nat, now: nat, slot: Slot, taken: nat, expires: nat, at: C)

  datatype Event<C> =
    | Edited(content: C)
    | TimePassed(ms: nat)
    | Canceled
    | Begins(expires: nat)
    | Measures
    | Prepared(expires: nat)
    | DownloadStarts(expires: nat)
    | Sends(n: nat)
    | FileEnds
    | Finishes

  predicate Check<C>(s: Exporter<C>) { s.now <= s.expires && s.version == s.taken }

  function Unread(files: seq<Announced>): seq<Entry> {
    if files == [] then [] else [Entry(files[0].name, files[0].size, [])] + Unread(files[1..])
  }

  function Measure<C>(b: Bundle<C>, s: Exporter<C>): Slot
    requires s.slot.Preparing?
  {
    var k := |s.slot.measured|;
    if !Check(s) then Stopped
    else if k >= |s.slot.names| then s.slot
    else s.slot.(measured := s.slot.measured + [Announced(s.slot.names[k], |b.render(s.content, s.slot.names[k])|)])
  }

  function Prepare<C>(b: Bundle<C>, s: Exporter<C>): Slot
    requires s.slot.Preparing?
  {
    if |s.slot.measured| < |s.slot.names| then s.slot
    else
      var size := ZipSize(Unread(s.slot.measured), b.fold);
      if !Check(s) || !size.Size? then Stopped else Ready(s.slot.measured, size.n)
  }

  /** The next stretch of the file being sent, unless it has grown. */
  function Send<C>(b: Bundle<C>, s: Exporter<C>, n: nat): Slot
    requires s.slot.Downloading?
  {
    var k := |s.slot.sent|;
    if k >= |s.slot.files| then s.slot
    else
      var data, at := b.render(s.content, s.slot.files[k].name), |Join(s.slot.part)|;
      if !Check(s) || at + n > s.slot.files[k].size then Stopped
      else if at + n > |data| then s.slot
      else s.slot.(part := s.slot.part + [data[at..at + n]])
  }

  /** The reader has nothing more: the file is complete, or shorter than announced. */
  function EndFile<C>(b: Bundle<C>, s: Exporter<C>): Slot
    requires s.slot.Downloading?
  {
    var k := |s.slot.sent|;
    if k >= |s.slot.files| || |Join(s.slot.part)| < |b.render(s.content, s.slot.files[k].name)| then s.slot
    else if !Check(s) || |Join(s.slot.part)| != s.slot.files[k].size then Stopped
    else s.slot.(sent := s.slot.sent + [Entry(s.slot.files[k].name, s.slot.files[k].size, s.slot.part)], part := [])
  }

  function Finish<C>(s: Exporter<C>): Slot
    requires s.slot.Downloading?
  {
    if |s.slot.sent| < |s.slot.files| then s.slot
    else if !Check(s) then Stopped
    else Complete(s.slot.bytes, Archive(s.slot.sent))
  }

  function Apply<C>(b: Bundle<C>, s: Exporter<C>, ev: Event<C>): Exporter<C> {
    match ev
    case Edited(content) => s.(content := content, version := s.version + 1)
    case TimePassed(ms) => s.(now := s.now + ms)
    case Canceled => if s.slot.Complete? then s else s.(slot := Stopped)
    case Begins(expires) =>
      if s.slot.Stopped? || s.slot.Complete?
      then s.(slot := Preparing(b.list(s.content), []), taken := s.version, expires := expires, at := s.content) else s
    case Measures => if s.slot.Preparing? then s.(slot := Measure(b, s)) else s
    case Prepared(expires) => if s.slot.Preparing? then s.(slot := Prepare(b, s), expires := expires) else s
    case DownloadStarts(expires) =>
      if !s.slot.Ready? then s
      else if !Check(s) then s.(slot := Stopped)
      else s.(slot := Downloading(s.slot.files, s.slot.bytes, [], []), expires := expires)
    case Sends(n) => if s.slot.Downloading? then s.(slot := Send(b, s, n)) else s
    case FileEnds => if s.slot.Downloading? then s.(slot := EndFile(b, s)) else s
    case Finishes => if s.slot.Downloading? then s.(slot := Finish(s)) else s
  }

  function Run<C>(b: Bundle<C>, s: Exporter<C>, evs: seq<Event<C>>): Exporter<C>
    decreases |evs|
  {
    if evs == [] then s else Run(b, Apply(b, s, evs[0]), evs[1..])
  }

  // ---- What every run keeps ----

  /** The files of a bundle, measured on some content. */
  function Sizes<C>(b: Bundle<C>, c: C, names: seq<Bytes>): (r: seq<Announced>)
    ensures |r| == |names| && forall i | 0 <= i < |r| :: r[i] == Announced(names[i], |b.render(c, names[i])|)
  {
    seq(|names|, i requires 0 <= i < |names| => Announced(names[i], |b.render(c, names[i])|))
  }

  /** Each file sent is the one listed, with its bytes and announced size. */
  ghost predicate SentIs<C>(b: Bundle<C>, c: C, files: seq<Announced>, sent: seq<Entry>) {
    && |sent| <= |files|
    && forall i | 0 <= i < |sent| ::
         sent[i].name == files[i].name && sent[i].size == files[i].size && Data(sent[i]) == b.render(c, files[i].name)
  }

  ghost predicate SlotOk<C>(b: Bundle<C>, c: C, slot: Slot) {
    match slot
    case Stopped => true
    case Preparing(names, measured) =>
      names == b.list(c) && |measured| <= |names| && measured == Sizes(b, c, names[..|measured|])
    case Ready(files, bytes) => files == Sizes(b, c, b.list(c)) && ZipSize(Unread(files), b.fold) == Size(bytes)
    case Downloading(files, bytes, sent, part) =>
      && files == Sizes(b, c, b.list(c)) && ZipSize(Unread(files), b.fold) == Size(bytes) && SentIs(b, c, files, sent)
      && (|sent| < |files| ==> Join(part) <= b.render(c, files[|sent|].name))
      && (|sent| == |files| ==> part == [])
    case Complete(bytes, out) => IsExport(b, c, bytes, out)
  }

  /** A ZIP archive of exactly the files of this content, as long as announced. */
  ghost predicate IsExport<C>(b: Bundle<C>, c: C, bytes: nat, out: Bytes) {
    exists entries: seq<Entry> ::
      && |entries| == |b.list(c)| && SentIs(b, c, Sizes(b, c, b.list(c)), entries)
      && out == Archive(entries) && |out| == bytes && Read(out) == Some(Files(entries))
  }

  ghost predicate Inv<C>(b: Bundle<C>, s: Exporter<C>) {
    && s.taken <= s.version && (s.version == s.taken ==> s.content == s.at)
    && SlotOk(b, s.at, s.slot)
  }

  ghost predicate SameSizes(files: seq<Announced>, sent: seq<Entry>) {
    |sent| == |files| && forall i | 0 <= i < |sent| :: sent[i].name == files[i].name && sent[i].size == files[i].size
  }

  lemma SameRest(files: seq<Announced>, sent: seq<Entry>)
    requires SameSizes(files, sent) && files != []
    ensures SameSizes(files[1..], sent[1..])
    ensures Unread(files)[1..] == Unread(files[1..]) && Unread(files)[0].name == sent[0].name && Unread(files)[0].size == sent[0].size
  {
  }

  /** The size check looks at names and sizes only. */
  lemma {:induction false} SizeOfSent(files: seq<Announced>, sent: seq<Entry>, fold: Bytes -> Bytes, names: set<Bytes>, nameBytes: nat, total: nat)
    requires SameSizes(files, sent)
    ensures SizeFrom(sent, fold, names, nameBytes, total) == SizeFrom(Unread(files), fold, names, nameBytes, total)
    decreases |files|
  {
    hide NameOk, Unread, SameSizes;
    SameLengths(files, sent);
    if sent != [] {
      SameRest(files, sent);
      var e := sent[0];
      SizeOfSent(files[1..], sent[1..], fold, names + {fold(e.name)}, nameBytes + |e.name|,
        if e.size < 0 then 0 else total + 30 + |e.name| + e.size + 16 + 46 + |e.name|);
    }
  }

  lemma {:induction false} UnreadLength(files: seq<Announced>)
    ensures |Unread(files)| == |files|
  {
    if files != [] { UnreadLength(files[1..]); }
  }

  lemma SameLengths(files: seq<Announced>, sent: seq<Entry>)
    requires SameSizes(files, sent)
    ensures |files| == |sent| == |Unread(files)|
  {
    UnreadLength(files);
  }

  /** All files sent: the archive is the export. */
  lemma AllSent<C>(b: Bundle<C>, s: Exporter<C>)
    requires Inv(b, s) && s.slot.Downloading? && |s.slot.sent| == |s.slot.files|
    ensures IsExport(b, s.at, s.slot.bytes, Archive(s.slot.sent))
  {
    hide Archive, Read, Files, SizeFrom, Data, Unread;
    var sent := s.slot.sent;
    UnreadLength(s.slot.files);
    SizeOfSent(s.slot.files, sent, b.fold, {}, 0, 22);
    forall e | e in sent ensures |Data(e)| == e.size {
      var i :| 0 <= i < |sent| && sent[i] == e;
    }
    RoundTrip(sent, b.fold);
  }

  lemma {:induction false} JoinAppends(part: seq<Bytes>, c: Bytes)
    ensures Join(part + [c]) == Join(part) + c
    decreases |part|
  {
    if part == [] {
      assert part + [c] == [c];
    } else {
      assert (part + [c])[1..] == part[1..] + [c];
      JoinAppends(part[1..], c);
    }
  }

  lemma PrepareOk<C>(b: Bundle<C>, s: Exporter<C>)
    requires Inv(b, s) && s.slot.Preparing?
    ensures SlotOk(b, s.at, Measure(b, s)) && SlotOk(b, s.at, Prepare(b, s))
  {
    hide IsExport, SentIs, ZipSize;
    var k := |s.slot.measured|;
    if k < |s.slot.names| {
      assert s.slot.names[..k + 1] == s.slot.names[..k] + [s.slot.names[k]];
    } else {
      assert s.slot.names[..k] == s.slot.names;
    }
  }

  lemma SendOk<C>(b: Bundle<C>, s: Exporter<C>, n: nat)
    requires Inv(b, s) && s.slot.Downloading?
    ensures SlotOk(b, s.at, Send(b, s, n))
  {
    hide IsExport, SentIs, ZipSize, Join;
    if |s.slot.sent| < |s.slot.files| {
      var data, at := b.render(s.content, s.slot.files[|s.slot.sent|].name), |Join(s.slot.part)|;
      if at + n <= |data| { JoinAppends(s.slot.part, data[at..at + n]); }
    }
  }

  lemma EndOk<C>(b: Bundle<C>, s: Exporter<C>)
    requires Inv(b, s) && s.slot.Downloading?
    ensures SlotOk(b, s.at, EndFile(b, s)) && SlotOk(b, s.at, Finish(s))
  {
    hide IsExport, ZipSize, Archive;
    if |s.slot.sent| == |s.slot.files| { AllSent(b, s); }
  }

  lemma EventKept<C>(b: Bundle<C>, s: Exporter<C>, ev: Event<C>)
    requires Inv(b, s)
    ensures Inv(b, Apply(b, s, ev))
  {
    hide IsExport, SentIs, ZipSize, Measure, Prepare, Send, EndFile, Finish, Join;
    match s.slot {
      case Preparing(_, _) => PrepareOk(b, s);
      case Downloading(_, _, _, _) =>
        EndOk(b, s);
        if ev.Sends? { SendOk(b, s, ev.n); }
      case Ready(_, _) => NothingSent(b, s.at, s.slot.files);
      case _ =>
    }
  }

  lemma NothingSent<C>(b: Bundle<C>, c: C, files: seq<Announced>)
    ensures SentIs(b, c, files, []) && Join([]) == []
  {
  }

  lemma {:induction false} RunKept<C>(b: Bundle<C>, s: Exporter<C>, evs: seq<Event<C>>)
    requires Inv(b, s)
    ensures Inv(b, Run(b, s, evs))
    decreases |evs|
  {
    hide Inv, Apply;
    if evs != [] {
      EventKept(b, s, evs[0]);
      RunKept(b, Apply(b, s, evs[0]), evs[1..]);
    }
  }

  // ---- Downloads ----

  ghost predicate Init<C>(s: Exporter<C>) {
    s.slot.Stopped? && s.taken == s.version && s.at == s.content
  }

  /** The export began at some point of the run, on this content. */
  ghost predicate BeganWith<C>(b: Bundle<C>, s: Exporter<C>, evs: seq<Event<C>>, c: C) {
    exists k :: 0 <= k < |evs| && evs[k].Begins? && Run(b, s, evs[..k]).content == c
  }

  lemma {:induction false} BeginsOnce<C>(b: Bundle<C>, s: Exporter<C>, evs: seq<Event<C>>)
    ensures var r := Run(b, s, evs); r.slot.Stopped? || BeganWith(b, s, evs, r.at) || (!s.slot.Stopped? && r.at == s.at)
    decreases |evs|
  {
    hide Measure, Prepare, Send, EndFile, Finish;
    if evs != [] {
      var s1, rest := Apply(b, s, evs[0]), evs[1..];
      var r := Run(b, s, evs);
      BeginsOnce(b, s1, rest);
      if BeganWith(b, s1, rest, r.at) {
        var k :| 0 <= k < |rest| && rest[k].Begins? && Run(b, s1, rest[..k]).content == r.at;
        assert evs[..k + 1][1..] == rest[..k];
        assert Run(b, s, evs[..k + 1]).content == r.at;
      } else if !r.slot.Stopped? && s1.at != s.at {
        assert Run(b, s, evs[..0]).content == r.at;
      } else if !r.slot.Stopped? && s.slot.Stopped? {
        assert evs[0].Begins? && Run(b, s, evs[..0]).content == r.at;
      }
    }
  }

  /** Whatever edits, cancels and delays come between, a download that finishes is a
      ZIP archive of exactly the content the wiki had when the export began, with the
      sizes announced, and it reads back. */
  lemma DownloadIsOneVersion<C>(b: Bundle<C>, s: Exporter<C>, evs: seq<Event<C>>)
    requires Init(s) && Run(b, s, evs).slot.Complete?
    ensures var r := Run(b, s, evs); IsExport(b, r.at, r.slot.bytes, r.slot.out) && BeganWith(b, s, evs, r.at)
  {
    hide IsExport, Run;
    InitHolds(b, s);
    RunKept(b, s, evs);
    BeginsOnce(b, s, evs);
  }

  /** Nobody edits or cancels, and no time passes. */
  ghost predicate Undisturbed<C>(evs: seq<Event<C>>) {
    forall ev | ev in evs :: ev.DownloadStarts? || ev.Sends? || ev.FileEnds? || ev.Finishes?
  }

  lemma {:induction false} RunJoins<C>(b: Bundle<C>, s: Exporter<C>, a: seq<Event<C>>, rest: seq<Event<C>>)
    ensures Run(b, s, a + rest) == Run(b, Run(b, s, a), rest)
    decreases |a|
  {
    hide Apply;
    if a == [] {
      assert a + rest == rest;
    } else {
      assert (a + rest)[1..] == a[1..] + rest;
      RunJoins(b, Apply(b, s, a[0]), a[1..], rest);
    }
  }

  /** One file goes out in one stretch. */
  lemma FileGoes<C>(b: Bundle<C>, s: Exporter<C>)
    requires Inv(b, s) && Check(s) && s.slot.Downloading? && s.slot.part == [] && |s.slot.sent| < |s.slot.files|
    ensures var t := Run(b, s, [Sends(|b.render(s.content, s.slot.files[|s.slot.sent|].name)|), FileEnds]);
      && t == s.(slot := t.slot) && t.slot.Downloading? && t.slot.part == []
      && t.slot.files == s.slot.files && |t.slot.sent| == |s.slot.sent| + 1
  {
    hide ZipSize;
    var data := b.render(s.content, s.slot.files[|s.slot.sent|].name);
    var s1 := Apply(b, s, Sends(|data|));
    assert data[0..|data|] == data && [] + [data] == [data];
    assert s1.slot.part == [data];
    assert Join([data]) == data + Join([]);
    var evs: seq<Event<C>> := [Sends(|data|), FileEnds];
    assert evs[1..] == [FileEnds];
    assert Run(b, s1, [FileEnds]) == Run(b, Apply(b, s1, FileEnds), []);
  }

  lemma {:induction false} FilesGo<C>(b: Bundle<C>, s: Exporter<C>) returns (evs: seq<Event<C>>)
    requires Inv(b, s) && Check(s) && s.slot.Downloading? && s.slot.part == []
    ensures Undisturbed(evs) && Run(b, s, evs).slot.Complete?
    decreases |s.slot.files| - |s.slot.sent|
  {
    if |s.slot.sent| < |s.slot.files| {
      hide Inv, Apply, Run;
      var first := [Sends(|b.render(s.content, s.slot.files[|s.slot.sent|].name)|), FileEnds];
      FileGoes(b, s);
      RunKept(b, s, first);
      var rest := FilesGo(b, Run(b, s, first));
      RunJoins(b, s, first, rest);
      evs := first + rest;
    } else {
      evs := [Finishes];
      assert Run(b, Apply(b, s, Finishes), []) == Apply(b, s, Finishes);
    }
  }

  /** In every run an export that is ready and left undisturbed downloads to the end:
      what was measured is what is sent. */
  lemma ReadyDownloads<C>(b: Bundle<C>, s0: Exporter<C>, before: seq<Event<C>>, expires: nat) returns (evs: seq<Event<C>>)
    requires var s := Run(b, s0, before); s.slot.Ready? && Check(s) && s.now <= expires
    requires Init(s0)
    ensures Undisturbed(evs) && Run(b, Run(b, s0, before), evs).slot.Complete?
  {
    hide Inv, Run, Measure, Prepare, Send, EndFile, Finish;
    var s := Run(b, s0, before);
    InitHolds(b, s0);
    RunKept(b, s0, before);
    EventKept(b, s, DownloadStarts(expires));
    var rest := FilesGo(b, Apply(b, s, DownloadStarts(expires)));
    evs := [DownloadStarts(expires)] + rest;
    OneFirst(b, s, DownloadStarts(expires), rest);
  }

  lemma InitHolds<C>(b: Bundle<C>, s: Exporter<C>)
    requires Init(s)
    ensures Inv(b, s)
  {
  }

  lemma OneFirst<C>(b: Bundle<C>, s: Exporter<C>, ev: Event<C>, rest: seq<Event<C>>)
    ensures Run(b, s, [ev] + rest) == Run(b, Apply(b, s, ev), rest)
  {
    assert ([ev] + rest)[1..] == rest;
  }
}
