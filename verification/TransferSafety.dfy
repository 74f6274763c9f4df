/** What the parallel download keeps and what it saves: one call per part, no wrong byte, the finished file
    (next-frontend/app/lib/workerConnection.ts, downloadWorkerLocalFile). Everything depends on how the target is
    found when it is opened, so the results say exactly what a click at that moment costs. */
module TransferSafety {
  import opened Basics
  import opened ByteRanges
  import opened Transfer

  // ---- the invariant ----

  // One live call per part, and both entries of the part are its; a part is downloading exactly while it has one
  ghost predicate Registry(s: State) {
    && Linked(s) && s.controllers == s.registered
    && (forall r :: 0 <= r < |s.runners| && s.runners[r].Live() ==>
          s.runners[r].part in s.registered && s.registered[s.runners[r].part] == r)
    && (forall i :: 0 <= i < |s.parts| ==> (s.parts[i].status == Downloading <==> i in s.registered))
  }

  // The body goes on where the part's bytes end, and a chunk on its way is the next stretch of the source.
  ghost predicate Placed(x: Runner, p: Part, writable: bool, u: Setup) {
    && (x.stage.Connecting? || x.stage.Reading? ==> x.position == p.start + p.received)
    && (x.stage.Writing? ==>
          && x.stage.chunk != []
          && x.position == p.start + p.received + |x.stage.chunk| <= p.end + 1 <= |u.source|
          && x.stage.chunk == u.source[p.start + p.received..x.position]
          && x.stage.target == if writable then Some(p.start + p.received) else None)
  }

  ghost predicate Positions(s: State, u: Setup) {
    && (forall i :: 0 <= i < |s.parts| ==> s.parts[i].received <= s.parts[i].Size())
    && (forall r: nat :: Has(s, r) ==> Placed(s.runners[r], s.parts[s.runners[r].part], Writable(s, u), u))
  }

  // What the target held at p before the transfer; a gap reads as zero
  ghost function Before(u: Setup, p: nat): Byte {
    if p < |u.existing| then u.existing[p] else 0
  }

  ghost predicate Stored(bytes: seq<Byte>, start: nat, n: nat, u: Setup) {
    n > 0 ==>
      start + n <= |bytes| && start + n <= |u.source| && bytes[start..start + n] == u.source[start..start + n]
  }

  ghost predicate Untouched(bytes: seq<Byte>, start: nat, n: nat, u: Setup) {
    forall p :: start <= p < start + n && p < |bytes| ==> bytes[p] == Before(u, p)
  }

  // Every byte in the target is the old one or the right one.
  ghost predicate OldOrRight(bytes: seq<Byte>, u: Setup) {
    && |u.existing| <= |bytes| <= Max(|u.existing|, |u.source|)
    && forall p :: 0 <= p < |bytes| ==> bytes[p] == Before(u, p) || (p < |u.source| && bytes[p] == u.source[p])
  }

  ghost function SumReceived(parts: seq<Part>): nat {
    if parts == [] then 0 else SumReceived(parts[..|parts| - 1]) + parts[|parts| - 1].received
  }

  ghost predicate Gathered(bytes: seq<Byte>, start: nat, u: Setup) {
    start + |bytes| <= |u.source| && bytes == u.source[start..start + |bytes|]
  }

  // The bytes of a part that came before the target was open are in memory, the later ones are in the target.
  ghost predicate PartContent(p: Part, blob: seq<Byte>, disk: seq<Byte>, writable: bool, u: Setup) {
    && |blob| <= p.received && Gathered(blob, p.start, u)
    && (writable ==>
          && Stored(disk, p.start + |blob|, p.received - |blob|, u)
          && Untouched(disk, p.start, |blob|, u))
    && (!writable ==> |blob| == p.received)
  }

  // The target only grows up to the end of a part that is written into.
  ghost predicate Extent(s: State, u: Setup) {
    |s.disk| > |u.existing| ==>
      exists i :: 0 <= i < |s.parts| && |BlobOf(s.blobs, i)| < s.parts[i].Size() && |s.disk| <= s.parts[i].end + 1
  }

  ghost predicate PartsContent(s: State, u: Setup) {
    forall i :: 0 <= i < |s.parts| ==> PartContent(s.parts[i], BlobOf(s.blobs, i), s.disk, Writable(s, u), u)
  }

  ghost predicate Content(s: State, u: Setup) {
    && s.totalReceived == SumReceived(s.parts)
    && (!Writable(s, u) ==> s.disk == u.existing)
    && OldOrRight(s.disk, u) && Extent(s, u) && PartsContent(s, u)
  }

  ghost predicate Sound(s: State, u: Setup) {
    Tiles(s.parts, |u.source|) && Registry(s) && Positions(s, u) && Content(s, u)
  }

  // Same bytes everywhere
  ghost predicate SameBytes(s: State, t: State) {
    && t.disk == s.disk && t.blobs == s.blobs && t.totalReceived == s.totalReceived && t.started == s.started
    && |t.parts| == |s.parts|
    && forall i :: 0 <= i < |s.parts| ==> SamePlace(s.parts[i], t.parts[i])
  }

  ghost predicate SamePlace(p: Part, q: Part) {
    q.index == p.index && q.start == p.start && q.end == p.end && q.received == p.received
  }

  lemma {:induction false} SumSame(a: seq<Part>, b: seq<Part>)
    requires |a| == |b| && forall i :: 0 <= i < |a| ==> SamePlace(a[i], b[i])
    ensures SumReceived(a) == SumReceived(b)
  {
    if a != [] {
      SumSame(a[..|a| - 1], b[..|b| - 1]);
    }
  }

  lemma SameTiles(a: seq<Part>, b: seq<Part>, total: nat)
    requires |a| == |b| && Tiles(a, total) && forall i :: 0 <= i < |a| ==> SamePlace(a[i], b[i])
    ensures Tiles(b, total)
  {
    assert SamePlace(a[0], b[0]) && SamePlace(a[|a| - 1], b[|a| - 1]);
  }

  lemma SameContent(s: State, t: State, u: Setup)
    requires SameBytes(s, t) && Content(s, u) && Tiles(s.parts, |u.source|)
    ensures Content(t, u) && Tiles(t.parts, |u.source|)
  {
    hide Tiles, OldOrRight, Stored, Gathered, Untouched, SumReceived;
    SumSame(s.parts, t.parts);
    SameTiles(s.parts, t.parts, |u.source|);
    forall i | 0 <= i < |s.parts|
      ensures BlobOf(t.blobs, i) == BlobOf(s.blobs, i) && SamePlace(s.parts[i], t.parts[i])
    {
    }
  }

  // ---- the three ways a call's record changes ----

  lemma RegistrySet(s: State, r: nat, x: Runner)
    requires Registry(s) && Has(s, r) && s.runners[r].Live() && x.part == s.runners[r].part && x.Live()
    ensures Registry(SetRunner(s, r, x))
  {
    LinkedSet(s, r, x);
    hide Linked;
  }

  lemma PositionsSet(s: State, r: nat, x: Runner, u: Setup)
    requires Positions(s, u) && Has(s, r) && x.part == s.runners[r].part
    requires Placed(x, s.parts[x.part], Writable(s, u), u)
    ensures Positions(SetRunner(s, r, x), u)
  {
    hide Placed;
    var t := SetRunner(s, r, x);
    forall k: nat | Has(t, k)
      ensures Placed(t.runners[k], t.parts[t.runners[k].part], Writable(t, u), u)
    {
      assert Has(s, k);
    }
  }

  lemma SetRunnerSound(s: State, r: nat, x: Runner, u: Setup)
    requires Sound(s, u) && Has(s, r) && s.runners[r].Live()
    requires x.part == s.runners[r].part && x.Live() && Placed(x, s.parts[x.part], Writable(s, u), u)
    ensures Sound(SetRunner(s, r, x), u)
  {
    hide Registry, Positions, Content, Tiles, Placed;
    RegistrySet(s, r, x);
    PositionsSet(s, r, x, u);
    SameContent(s, SetRunner(s, r, x), u);
  }

  lemma RegistryEnd(s: State, r: nat, x: Runner, status: Status, special: bool)
    requires Registry(s) && Has(s, r) && s.runners[r].Live() && x.part == s.runners[r].part && status != Downloading
    ensures Registry(End(s, r, x, status, special))
  {
    LinkedEnd(s, r, x, status, special);
    hide Linked;
  }

  lemma PositionsEnd(s: State, r: nat, x: Runner, status: Status, special: bool, u: Setup)
    requires Positions(s, u) && Has(s, r) && x.part == s.runners[r].part
    ensures Positions(End(s, r, x, status, special), u)
  {
    var t := End(s, r, x, status, special);
    forall k: nat | Has(t, k)
      ensures Placed(t.runners[k], t.parts[t.runners[k].part], Writable(t, u), u)
    {
      assert Has(s, k);
    }
  }

  lemma EndSound(s: State, r: nat, x: Runner, status: Status, special: bool, u: Setup)
    requires Sound(s, u) && Has(s, r) && s.runners[r].Live() && status != Downloading && x.part == s.runners[r].part
    ensures Sound(End(s, r, x, status, special), u)
  {
    hide Registry, Positions, Content, Tiles;
    RegistryEnd(s, r, x, status, special);
    PositionsEnd(s, r, x, status, special, u);
    SameContent(s, End(s, r, x, status, special), u);
  }

  lemma RegistryLaunch(s: State, i: nat, auto: nat, observed: bool, max: nat)
    requires Registry(s) && i < |s.parts| && i !in s.registered
    ensures Registry(Launch(s, i, auto, observed, max))
  {
  }

  lemma PositionsLaunch(s: State, i: nat, auto: nat, observed: bool, u: Setup)
    requires Positions(s, u) && i < |s.parts|
    ensures Positions(Launch(s, i, auto, observed, u.max), u)
  {
    var t := Launch(s, i, auto, observed, u.max);
    forall k: nat | Has(t, k)
      ensures Placed(t.runners[k], t.parts[t.runners[k].part], Writable(t, u), u)
    {
      if k < |s.runners| {
        assert Has(s, k);
      }
    }
  }

  lemma LaunchSound(s: State, i: nat, auto: nat, observed: bool, u: Setup)
    requires Sound(s, u) && i < |s.parts| && i !in s.registered
    ensures Sound(Launch(s, i, auto, observed, u.max), u)
  {
    hide Registry, Positions, Content, Tiles;
    RegistryLaunch(s, i, auto, observed, u.max);
    PositionsLaunch(s, i, auto, observed, u);
    SameContent(s, Launch(s, i, auto, observed, u.max), u);
  }

  // ---- the steps of a call keep the invariant ----

  lemma BeginAttemptSound(s: State, r: nat, attempt: nat, u: Setup)
    requires Sound(s, u) && Has(s, r) && s.runners[r].stage.Waiting?
    ensures Sound(BeginAttempt(s, r, attempt), u)
  {
    hide Sound, End;
    var x := s.runners[r];
    var p := s.parts[x.part];
    RegisteredAt(s, r, u);
    EndSound(s, r, x, Completed, false, u);
    EndSound(s, r, x, Failed, false, u);
    SetRunnerSound(s, r, x.(flag := x.flag.(requested := false), attempt := attempt, aborted := false,
                            stage := Connecting, position := p.start + p.received,
                            connections := x.connections + 1), u);
  }

  lemma RegisteredAt(s: State, r: nat, u: Setup)
    requires Sound(s, u) && Has(s, r) && s.runners[r].Live()
    ensures s.(controllers := s.controllers[s.runners[r].part := r]) == s
  {
  }

  lemma StartSound(s: State, i: nat, auto: nat, observed: bool, u: Setup)
    requires Sound(s, u) && i < |s.parts| && i !in s.registered
    ensures Sound(Start(s, i, auto, observed, u.max), u)
  {
    hide Sound, BeginAttempt;
    LaunchSound(s, i, auto, observed, u);
    BeginAttemptSound(Launch(s, i, auto, observed, u.max), |s.runners|, 1, u);
  }

  lemma VoluntarySound(s: State, r: nat, u: Setup)
    requires Sound(s, u) && Has(s, r) && s.runners[r].Live()
    ensures Sound(Voluntary(s, r), u)
  {
    hide Sound;
    var x := s.runners[r];
    SetRunnerSound(s, r, x.(flag := x.flag.(requested := false), attempt := 0, stage := Waiting), u);
  }

  lemma ConsumeSound(s: State, r: nat, u: Setup)
    requires Sound(s, u) && Has(s, r) && s.runners[r].Live()
    ensures Sound(Consume(s, r), u)
  {
    hide Sound, End;
    var x := s.runners[r];
    var y := x.(flag := x.flag.(autoRestarts := x.flag.autoRestarts + 1), stage := Waiting);
    EndSound(s, r, y, Failed, false, u);
    SetRunnerSound(s, r, y, u);
  }

  lemma StreamErrorSound(s: State, r: nat, u: Setup)
    requires Sound(s, u) && Has(s, r) && s.runners[r].Live()
    ensures Sound(StreamError(s, r), u)
  {
    hide Sound, Voluntary, Consume;
    VoluntarySound(s, r, u);
    ConsumeSound(s, r, u);
  }

  lemma HeadersSound(s: State, r: nat, reply: Reply, u: Setup)
    requires Sound(s, u) && Has(s, r) && s.runners[r].stage.Connecting?
    ensures Sound(OnHeaders(s, r, reply), u)
  {
    hide Sound, Voluntary, Consume, End;
    PlacedAt(s, r, u);
    var x := s.runners[r];
    match reply
    case Partial => SetRunnerSound(s, r, x.(stage := Reading), u);
    case Aborted =>
      var y := x.(silent := if x.aborted then x.silent else x.silent + 1);
      SetRunnerSound(s, r, y, u);
      VoluntarySound(SetRunner(s, r, y), r, u);
    case Unreachable => ConsumeSound(s, r, u);
    case Html => ConsumeSound(s, r, u);
    case Whole => EndSound(s, r, x, Failed, true, u);
    case WrongRange => EndSound(s, r, x, Failed, true, u);
    case BadStatus =>
      if x.attempt == PART_MAX_ATTEMPTS {
        EndSound(s, r, x, Failed, false, u);
      } else {
        SetRunnerSound(s, r, x.(stage := Waiting), u);
      }
  }

  lemma CheckSpeedSound(s: State, r: nat, slow: bool, u: Setup)
    requires Sound(s, u) && Has(s, r) && s.runners[r].stage.Reading?
    ensures Sound(CheckSpeed(s, r, slow), u)
  {
    hide Sound, Voluntary, StreamError;
    PlacedAt(s, r, u);
    var x := s.runners[r];
    if slow && x.flag.autoRestarts >= x.flag.limit {
      StreamErrorSound(s, r, u);
    } else if slow {
      var y := x.(flag := x.flag.(autoRestarts := x.flag.autoRestarts + 1, requested := true), aborted := true);
      SetRunnerSound(s, r, y, u);
      VoluntarySound(SetRunner(s, r, y), r, u);
    }
  }

  lemma PlacedAt(s: State, r: nat, u: Setup)
    requires Sound(s, u) && Has(s, r)
    ensures Placed(s.runners[r], s.parts[s.runners[r].part], Writable(s, u), u)
  {
  }

  // ---- bytes on their way into the target ----

  lemma WriteAtPoint(file: seq<Byte>, at: nat, data: seq<Byte>)
    ensures var w := WriteAt(file, at, data);
            && |w| == Max(|file|, at + |data|)
            && (forall p :: 0 <= p < |w| ==>
                  w[p] == if at <= p < at + |data| then data[p - at] else if p < |file| then file[p] else 0)
  {
  }

  lemma OldOrRightWrite(file: seq<Byte>, at: nat, data: seq<Byte>, u: Setup)
    requires OldOrRight(file, u) && at + |data| <= |u.source| && data == u.source[at..at + |data|]
    ensures OldOrRight(WriteAt(file, at, data), u)
  {
    WriteAtPoint(file, at, data);
    hide WriteAt;
    var w := WriteAt(file, at, data);
    forall p | 0 <= p < |w|
      ensures w[p] == Before(u, p) || (p < |u.source| && w[p] == u.source[p])
    {
      if at <= p < at + |data| {
        assert data[p - at] == u.source[p];
      }
    }
  }

  // What is stored elsewhere stays, and what ends where the write begins grows by it.
  lemma StoredWrite(file: seq<Byte>, at: nat, data: seq<Byte>, start: nat, n: nat, u: Setup)
    requires Stored(file, start, n, u) && at + |data| <= |u.source| && data == u.source[at..at + |data|]
    ensures start + n <= at || at + |data| <= start ==> Stored(WriteAt(file, at, data), start, n, u)
    ensures start + n == at ==> Stored(WriteAt(file, at, data), start, n + |data|, u)
  {
    WriteAtPoint(file, at, data);
    hide WriteAt, Stored;
    var w := WriteAt(file, at, data);
    StoredPoints(file, start, n, u);
    if start + n <= at || at + |data| <= start {
      StoredPoints(w, start, n, u);
    }
    if start + n == at {
      forall p: nat | at <= p < at + |data|
        ensures w[p] == u.source[p]
      {
        assert data[p - at] == u.source[p];
      }
      StoredPoints(w, start, n + |data|, u);
    }
  }

  lemma StoredPoints(bytes: seq<Byte>, start: nat, n: nat, u: Setup)
    ensures Stored(bytes, start, n, u) <==>
              (n > 0 ==> start + n <= |bytes| && start + n <= |u.source|
                         && forall p :: start <= p < start + n ==> bytes[p] == u.source[p])
  {
    if n > 0 && start + n <= |bytes| && start + n <= |u.source| {
      var a, b := bytes[start..start + n], u.source[start..start + n];
      assert forall p :: start <= p < start + n ==> bytes[p] == a[p - start] && u.source[p] == b[p - start];
      if forall p :: start <= p < start + n ==> bytes[p] == u.source[p] {
        assert a == b;
      }
    }
  }

  lemma UntouchedWrite(file: seq<Byte>, at: nat, data: seq<Byte>, start: nat, n: nat, u: Setup)
    requires Untouched(file, start, n, u) && |u.existing| <= |file| && (start + n <= at || at + |data| <= start)
    ensures Untouched(WriteAt(file, at, data), start, n, u)
  {
    WriteAtPoint(file, at, data);
    hide WriteAt;
  }

  lemma {:induction false} SumUpdate(parts: seq<Part>, i: nat, p: Part)
    requires i < |parts|
    ensures SumReceived(parts[i := p]) == SumReceived(parts) + p.received - parts[i].received
  {
    var n := |parts| - 1;
    if i < n {
      SumUpdate(parts[..n], i, p);
      assert parts[i := p][..n] == parts[..n][i := p];
    } else {
      assert parts[i := p][..n] == parts[..n];
    }
  }

  lemma SourceJoin(source: seq<Byte>, a: nat, b: nat, c: nat)
    requires a <= b <= c <= |source|
    ensures source[a..b] + source[b..c] == source[a..c]
  {
  }

  lemma PrefixOfSlice(source: seq<Byte>, a: nat, b: nat, n: nat)
    requires a <= b <= |source| && n <= b - a
    ensures source[a..b][..n] == source[a..a + n]
  {
  }

  // Ranges of different parts do not meet, however much of them has arrived.
  lemma Apart(parts: seq<Part>, total: nat, i: nat, j: nat)
    requires Tiles(parts, total) && i < |parts| && j < |parts| && i != j
    requires forall k :: 0 <= k < |parts| ==> parts[k].received <= parts[k].Size()
    ensures parts[j].start + parts[j].received <= parts[i].start || parts[i].end + 1 <= parts[j].start
  {
    if i < j {
      TilesOrdered(parts, total, i, j);
    } else {
      TilesOrdered(parts, total, j, i);
    }
  }

  // What a write carries: it starts where the part's bytes end and stays inside the part.
  ghost predicate Carried(s: State, r: nat, data: seq<Byte>, u: Setup) {
    && Sound(s, u) && Has(s, r) && s.runners[r].stage.Writing? && Writable(s, u)
    && |data| <= |s.runners[r].stage.chunk| && data == s.runners[r].stage.chunk[..|data|]
  }

  lemma CarriedIs(s: State, r: nat, data: seq<Byte>, u: Setup)
    requires Carried(s, r, data, u)
    ensures var p := s.parts[s.runners[r].part]; var at := p.start + p.received;
            && p.received < p.Size() && at + |data| <= p.end + 1 <= |u.source| && data == u.source[at..at + |data|]
            && PartContent(p, BlobOf(s.blobs, s.runners[r].part), s.disk, true, u)
            && |BlobOf(s.blobs, s.runners[r].part)| <= p.received
            && |u.existing| <= |s.disk| && OldOrRight(s.disk, u) && Extent(s, u)
  {
    var p := s.parts[s.runners[r].part];
    var at := p.start + p.received;
    PlacedAt(s, r, u);
    assert PartContent(p, BlobOf(s.blobs, s.runners[r].part), s.disk, true, u);
    hide Sound;
    PrefixOfSlice(u.source, at, at + |s.runners[r].stage.chunk|, |data|);
  }

  lemma OtherPart(s: State, r: nat, j: nat, u: Setup)
    requires Sound(s, u) && Has(s, r) && Writable(s, u) && j < |s.parts|
    ensures PartContent(s.parts[j], BlobOf(s.blobs, j), s.disk, true, u)
    ensures var p, q := s.parts[s.runners[r].part], s.parts[j];
            j != s.runners[r].part ==> q.start + q.received <= p.start || p.end + 1 <= q.start
  {
    if j != s.runners[r].part {
      hide Tiles;
      Apart(s.parts, |u.source|, s.runners[r].part, j);
    }
  }

  // Bytes written into one part, seen from a part beside it and from the part itself
  lemma WriteBeside(q: Part, blob: seq<Byte>, disk: seq<Byte>, at: nat, data: seq<Byte>, u: Setup)
    requires PartContent(q, blob, disk, true, u) && |u.existing| <= |disk|
    requires at + |data| <= |u.source| && data == u.source[at..at + |data|]
    requires q.start + q.received <= at || at + |data| <= q.start
    ensures PartContent(q, blob, WriteAt(disk, at, data), true, u)
  {
    hide WriteAt, Stored, Untouched, Gathered;
    StoredWrite(disk, at, data, q.start + |blob|, q.received - |blob|, u);
    UntouchedWrite(disk, at, data, q.start, |blob|, u);
  }

  lemma WriteInto(p: Part, blob: seq<Byte>, disk: seq<Byte>, data: seq<Byte>, u: Setup)
    requires PartContent(p, blob, disk, true, u) && |u.existing| <= |disk|
    requires var at := p.start + p.received; at + |data| <= |u.source| && data == u.source[at..at + |data|]
    ensures PartContent(p.(received := p.received + |data|), blob, WriteAt(disk, p.start + p.received, data), true, u)
  {
    hide WriteAt, Stored, Untouched, Gathered;
    StoredWrite(disk, p.start + p.received, data, p.start + |blob|, p.received - |blob|, u);
    UntouchedWrite(disk, p.start + p.received, data, p.start, |blob|, u);
  }

  // A stretch of a chunk lands in the file: nothing else changes, and its part has grown by it.
  lemma WriteContent(s: State, r: nat, data: seq<Byte>, j: nat, u: Setup)
    requires Carried(s, r, data, u) && j < |s.parts|
    ensures var i := s.runners[r].part; var p, q := s.parts[i], s.parts[j];
            var disk := WriteAt(s.disk, p.start + p.received, data);
            && PartContent(q, BlobOf(s.blobs, j), disk, true, u)
            && (i == j ==> PartContent(p.(received := p.received + |data|), BlobOf(s.blobs, i), disk, true, u))
  {
    hide Sound, WriteAt, PartContent, OldOrRight, Extent, BlobOf;
    CarriedIs(s, r, data, u);
    OtherPart(s, r, j, u);
    var p, q, blob := s.parts[s.runners[r].part], s.parts[j], BlobOf(s.blobs, j);
    WriteBeside(q, blob, s.disk, p.start + p.received, data, u);
    if s.runners[r].part == j {
      WriteInto(p, blob, s.disk, data, u);
    }
  }

  lemma WriteExtent(s: State, r: nat, data: seq<Byte>, u: Setup)
    requires Carried(s, r, data, u)
    ensures var p := s.parts[s.runners[r].part]; var disk := WriteAt(s.disk, p.start + p.received, data);
            && OldOrRight(disk, u) && Extent(s.(disk := disk), u)
  {
    hide Sound, WriteAt, PartContent, OldOrRight, Extent, BlobOf;
    var p := s.parts[s.runners[r].part];
    CarriedIs(s, r, data, u);
    OldOrRightWrite(s.disk, p.start + p.received, data, u);
    WriteAtPoint(s.disk, p.start + p.received, data);
    ExtentGrows(s, s.runners[r].part, WriteAt(s.disk, p.start + p.received, data), u);
  }

  lemma ExtentGrows(s: State, i: nat, disk: seq<Byte>, u: Setup)
    requires Extent(s, u) && i < |s.parts| && |BlobOf(s.blobs, i)| < s.parts[i].Size()
    requires |disk| <= Max(|s.disk|, s.parts[i].end + 1)
    ensures Extent(s.(disk := disk), u)
  {
    hide BlobOf;
  }

  lemma LoseWriteSound(s: State, r: nat, landed: nat, u: Setup)
    requires Sound(s, u) && Has(s, r) && s.runners[r].stage.Writing? && s.runners[r].stage.target.Some?
    requires landed <= |s.runners[r].stage.chunk|
    ensures Sound(LoseWrite(s, r, landed), u)
  {
    hide WriteAt, PartContent, OldOrRight, Extent, Tiles, Positions, Registry, SumReceived;
    var t := LoseWrite(s, r, landed);
    var data := s.runners[r].stage.chunk[..landed];
    PlacedAt(s, r, u);
    assert Carried(s, r, data, u);
    WriteExtent(s, r, data, u);
    forall j: nat | j < |s.parts|
      ensures PartContent(t.parts[j], BlobOf(t.blobs, j), t.disk, true, u)
    {
      WriteContent(s, r, data, j, u);
    }
    Unmoved(s, t, u);
  }

  lemma Unmoved(s: State, t: State, u: Setup)
    requires t == s.(disk := t.disk) && Positions(s, u) && Registry(s)
    ensures Positions(t, u) && Registry(t)
  {
    assert t.parts == s.parts && t.runners == s.runners && t.registered == s.registered;
    forall k: nat | Has(t, k)
      ensures Placed(t.runners[k], t.parts[t.runners[k].part], Writable(t, u), u)
    {
      assert Has(s, k);
    }
  }

  lemma RegistryStore(s: State, r: nat)
    requires Registry(s) && Has(s, r) && s.runners[r].stage.Writing?
    ensures Registry(Store(s, r))
  {
    hide Linked, WriteAt, BlobOf;
    LinkedStored(s, r);
  }

  lemma PositionsStore(s: State, r: nat, u: Setup)
    requires Sound(s, u) && Has(s, r) && s.runners[r].stage.Writing?
    ensures Positions(Store(s, r), u)
  {
    hide WriteAt, BlobOf, Tiles, Content, Linked;
    var t := Store(s, r);
    PlacedAt(s, r, u);
    forall k: nat | Has(t, k)
      ensures Placed(t.runners[k], t.parts[t.runners[k].part], Writable(t, u), u)
    {
      assert Has(s, k);
    }
  }

  lemma TilesStore(s: State, r: nat, u: Setup)
    requires Tiles(s.parts, |u.source|) && Has(s, r) && s.runners[r].stage.Writing?
    ensures Tiles(Store(s, r).parts, |u.source|)
  {
    hide WriteAt, BlobOf;
  }

  lemma TotalStore(s: State, r: nat)
    requires s.totalReceived == SumReceived(s.parts) && Has(s, r) && s.runners[r].stage.Writing?
    ensures Store(s, r).totalReceived == SumReceived(Store(s, r).parts)
  {
    hide WriteAt, BlobOf;
    var p := s.parts[s.runners[r].part];
    SumUpdate(s.parts, s.runners[r].part, p.(received := p.received + |s.runners[r].stage.chunk|));
  }

  lemma DiskStore(s: State, r: nat, u: Setup)
    requires Sound(s, u) && Has(s, r) && s.runners[r].stage.Writing? && Writable(s, u)
    ensures var t := Store(s, r); OldOrRight(t.disk, u) && Extent(t, u) && PartsContent(t, u)
  {
    hide WriteAt, OldOrRight, PartContent, Sound, BlobOf;
    PlacedAt(s, r, u);
    var t := Store(s, r);
    var chunk := s.runners[r].stage.chunk;
    assert chunk == chunk[..|chunk|];
    WriteExtent(s, r, chunk, u);
    forall j: nat | j < |t.parts|
      ensures PartContent(t.parts[j], BlobOf(t.blobs, j), t.disk, true, u)
    {
      WriteContent(s, r, chunk, j, u);
    }
  }

  lemma BlobStore(s: State, r: nat, u: Setup)
    requires Sound(s, u) && Has(s, r) && s.runners[r].stage.Writing? && !Writable(s, u)
    ensures PartsContent(Store(s, r), u) && Store(s, r).disk == s.disk
  {
    hide PartContent, OldOrRight, Extent, Tiles, Registry, Positions, SumReceived;
    PlacedAt(s, r, u);
    var i, chunk := s.runners[r].part, s.runners[r].stage.chunk;
    BlobGrows(s.parts[i], BlobOf(s.blobs, i), chunk, s.disk, u);
  }

  lemma BlobGrows(p: Part, blob: seq<Byte>, chunk: seq<Byte>, disk: seq<Byte>, u: Setup)
    requires PartContent(p, blob, disk, false, u)
    requires var at := p.start + p.received; at + |chunk| <= |u.source| && chunk == u.source[at..at + |chunk|]
    ensures PartContent(p.(received := p.received + |chunk|), blob + chunk, disk, false, u)
  {
    SourceJoin(u.source, p.start, p.start + p.received, p.start + p.received + |chunk|);
  }

  lemma ContentStore(s: State, r: nat, u: Setup)
    requires Sound(s, u) && Has(s, r) && s.runners[r].stage.Writing?
    ensures Content(Store(s, r), u)
  {
    TotalStore(s, r);
    if Writable(s, u) {
      DiskStore(s, r, u);
    } else {
      BlobStore(s, r, u);
    }
    hide WriteAt, OldOrRight, PartsContent, Tiles, Registry, Positions, SumReceived;
  }

  lemma StoreSound(s: State, r: nat, u: Setup)
    requires Sound(s, u) && Has(s, r) && s.runners[r].stage.Writing?
    ensures Sound(Store(s, r), u)
  {
    RegistryStore(s, r);
    PositionsStore(s, r, u);
    TilesStore(s, r, u);
    ContentStore(s, r, u);
    hide Registry, Positions, Content, Tiles;
  }

  // ---- starting parts ----

  lemma StartOnlyHere(s: State, i: nat, auto: nat, observed: bool, max: nat)
    requires i < |s.parts|
    ensures var t := Start(s, i, auto, observed, max);
            && |t.parts| == |s.parts| && t.started == s.started && t.phase2 == s.phase2 && t.outcome == s.outcome
            && forall j :: 0 <= j < |s.parts| && j != i ==>
                 t.parts[j] == s.parts[j] && (j in t.registered <==> j in s.registered)
  {
  }

  lemma {:induction false} StartFromSound(s: State, i: nat, failedOnly: bool, u: Setup)
    requires Sound(s, u) && i <= |s.parts|
    requires forall j :: i <= j < |s.parts| ==> j !in s.registered
    ensures Sound(StartFrom(s, i, failedOnly, u), u)
    decreases |s.parts| - i
  {
    hide Sound, Start;
    if i < |s.parts| {
      var chosen := if failedOnly then s.parts[i].status == Failed else s.parts[i].status != Completed;
      var auto := if failedOnly then s.parts[i].lastAuto else 0;
      if chosen {
        StartOnlyHere(s, i, auto, true, u.max);
        StartSound(s, i, auto, true, u);
        StartFromSound(Start(s, i, auto, true, u.max), i + 1, failedOnly, u);
      } else {
        StartFromSound(s, i + 1, failedOnly, u);
      }
    }
  }

  // Nothing is on its way when the target is opened.
  lemma OpenedSound(s: State, u: Setup)
    requires Sound(s, u) && !s.started && s.registered == map[]
    ensures Sound(s.(started := true), u)
  {
    var t := s.(started := true);
    assert Registry(t) && Positions(t, u);
    hide Tiles, Registry, Positions, OldOrRight, Extent, SumReceived, Gathered;
    forall i | 0 <= i < |t.parts|
      ensures PartContent(t.parts[i], BlobOf(t.blobs, i), t.disk, Writable(t, u), u)
    {
      assert PartContent(s.parts[i], BlobOf(s.blobs, i), s.disk, false, u);
      assert t.disk == u.existing;
    }
  }

  lemma ClickedCall(s: State, i: nat, u: Setup)
    requires Sound(s, u) && i in s.registered
    ensures i in s.controllers && s.controllers[i] == s.registered[i]
    ensures Has(s, s.registered[i]) && s.runners[s.registered[i]].Live()
  {
    assert Calls(s, i, s.registered[i]);
  }

  lemma SameRegistered(s: State, u: Setup)
    requires Sound(s, u)
    ensures s.controllers == s.registered
  {
  }

  lemma ClickSound(s: State, i: nat, u: Setup)
    requires Sound(s, u)
    ensures Sound(OnClick(s, i, u), u)
  {
    hide Sound, Start;
    if i in s.registered {
      ClickedCall(s, i, u);
      var r := s.registered[i];
      var y := Refreshed(s.runners[r], u.max);
      PlacedAt(s, r, u);
      SetRunnerSound(s, r, y, u);
      SetRunnerSound(SetRunner(s, r, y), r, y.(aborted := true), u);
    } else if i < |s.parts| && s.parts[i].status != Completed {
      SameRegistered(s, u);
      StartSound(s, i, s.parts[i].lastAuto, false, u);
    }
  }

  lemma PollSound(s: State, u: Setup)
    requires Sound(s, u)
    ensures Sound(OnPoll(s, u), u)
  {
    if !s.special && !AllCompleted(s) && !SomeActive(s) && !s.phase2 {
      var t := s.(phase2 := true);
      OtherFields(s, t, u);
      assert forall j :: 0 <= j < |t.parts| ==> t.parts[j].status != Downloading;
      assert forall j :: 0 <= j < |t.parts| ==> j !in t.registered;
      hide Sound;
      StartFromSound(t, 0, true, u);
    } else {
      OtherFields(s, OnPoll(s, u), u);
    }
  }

  lemma OtherFields(s: State, t: State, u: Setup)
    requires Sound(s, u) && t == s.(phase2 := t.phase2, outcome := t.outcome)
    ensures Sound(t, u)
  {
    SameContent(s, t, u);
    hide Content, Tiles;
    forall k: nat | Has(t, k)
      ensures Placed(t.runners[k], t.parts[t.runners[k].part], Writable(t, u), u)
    {
      assert Has(s, k);
    }
  }

  // ---- every step, every run ----

  /** Every step keeps registry, positions and contents, provided that no call is alive when the target is opened. */
  lemma StepSound(s: State, e: Event, u: Setup)
    requires Sound(s, u) && Enabled(s, e, u) && (e.Open? ==> s.registered == map[])
    ensures Sound(Step(s, e, u), u)
  {
    hide Sound, StartFrom, OnClick, OnPoll, OnHeaders, CheckSpeed, StreamError, Voluntary, BeginAttempt;
    match e
    case Open =>
      OpenedSound(s, u);
      StartFromSound(s.(started := true), 0, false, u);
    case Click(i) => ClickSound(s, i, u);
    case Poll => PollSound(s, u);
    case Headers(r, reply) => HeadersSound(s, r, reply, u);
    case Chunk(r, bytes) => ChunkSound(s, r, bytes, u);
    case Written(r, slow) =>
      StoreSound(s, r, u);
      CheckSpeedSound(Store(s, r), r, slow, u);
    case WriteFailed(r, landed) =>
      LoseWriteSound(s, r, landed, u);
      StreamErrorSound(LoseWrite(s, r, landed), r, u);
    case Finish(r) => FinishSound(s, r, u);
    case Break(r) => StreamErrorSound(s, r, u);
    case AbortRead(r) => VoluntarySound(s, r, u);
    case Wake(r) => BeginAttemptSound(s, r, s.runners[r].attempt + 1, u);
  }

  lemma ChunkSound(s: State, r: nat, bytes: seq<Byte>, u: Setup)
    requires Sound(s, u) && Enabled(s, Chunk(r, bytes), u)
    ensures Sound(Step(s, Chunk(r, bytes), u), u)
  {
    hide Sound;
    PlacedAt(s, r, u);
    var x := s.runners[r];
    SetRunnerSound(s, r, x.(stage := Writing(bytes, Target(s, x.part, u)), position := x.position + |bytes|), u);
  }

  lemma FinishSound(s: State, r: nat, u: Setup)
    requires Sound(s, u) && Has(s, r) && s.runners[r].stage.Reading?
    ensures Sound(OnFinish(s, r), u)
  {
    hide Sound, Voluntary, End;
    VoluntarySound(s, r, u);
    EndSound(s, r, s.runners[r], Completed, false, u);
  }

  lemma {:induction false} SumFresh(parts: seq<Part>)
    requires forall i :: 0 <= i < |parts| ==> parts[i].received == 0
    ensures SumReceived(parts) == 0
  {
    if parts != [] {
      SumFresh(parts[..|parts| - 1]);
    }
  }

  lemma InitialSound(parts: seq<Part>, u: Setup)
    requires Fresh(parts, u)
    ensures Sound(Initial(parts, u), u)
  {
    SumFresh(parts);
    forall i: nat | i < |parts|
      ensures parts[i].end < |u.source|
    {
      TilesWithin(parts, |u.source|, i);
    }
  }
}
