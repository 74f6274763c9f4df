/** What the parallel download saves, over every run (next-frontend/app/lib/workerConnection.ts,
    downloadWorkerLocalFile). A picked target is opened while the parts can be restarted already; what such an
    early click costs is stated exactly, by the state in which the target is opened. */
module TransferResults {
  import opened Basics
  import opened ByteRanges
  import opened Transfer
  import opened TransferSafety

  // The state in which the target was opened
  ghost function Opening(parts: seq<Part>, es: seq<Event>, u: Setup): State
    requires Run(parts, es, u).started
  {
    var n := |es| - 1;
    if Run(parts, es[..n], u).started then Opening(parts, es[..n], u) else Run(parts, es[..n], u)
  }

  // No call was alive when the target was opened.
  ghost predicate Smooth(parts: seq<Part>, es: seq<Event>, u: Setup) {
    Run(parts, es, u).started ==> Opening(parts, es, u).registered == map[]
  }

  // Nobody clicks while the target is being opened.
  ghost predicate NoEarlyClick(es: seq<Event>) {
    forall i :: 0 <= i < |es| && es[i].Click? ==> Open in es[..i]
  }

  lemma StepStarts(s: State, e: Event, u: Setup)
    requires Enabled(s, e, u)
    ensures Step(s, e, u).started == (s.started || e.Open?)
  {
    hide BeginAttempt, Start, Voluntary, StreamError, StartFrom, WriteAt, OnHeaders, CheckSpeed, OnFinish, Refresh;
  }

  lemma SmoothPrefix(parts: seq<Part>, es: seq<Event>, u: Setup)
    requires es != [] && Smooth(parts, es, u)
    ensures Smooth(parts, es[..|es| - 1], u)
  {
    hide Step, Enabled;
    var n := |es| - 1;
    if Enabled(Run(parts, es[..n], u), es[n], u) {
      StepStarts(Run(parts, es[..n], u), es[n], u);
    }
  }

  /** The invariant holds after every sequence of events that finds no call alive when the target is opened. */
  lemma {:induction false} RunSound(parts: seq<Part>, es: seq<Event>, u: Setup)
    requires Fresh(parts, u) && Smooth(parts, es, u)
    ensures Sound(Run(parts, es, u), u)
  {
    hide Sound, Step, Enabled, Fresh;
    if es == [] {
      InitialSound(parts, u);
    } else {
      var n := |es| - 1;
      var s := Run(parts, es[..n], u);
      SmoothPrefix(parts, es, u);
      RunSound(parts, es[..n], u);
      if Enabled(s, es[n], u) {
        StepStarts(s, es[n], u);
        OpenEnabled(s, es[n], u);
        StepSound(s, es[n], u);
      }
    }
  }

  lemma OpenEnabled(s: State, e: Event, u: Setup)
    requires Enabled(s, e, u)
    ensures e.Open? ==> !s.started
  {
  }

  lemma {:induction false} OpeningIs(parts: seq<Part>, es: seq<Event>, u: Setup)
    requires Fresh(parts, u) && Run(parts, es, u).started
    ensures var o := Opening(parts, es, u); !o.started && Sound(o, u)
  {
    hide Sound, Step, Enabled, Fresh;
    var n := |es| - 1;
    if Run(parts, es[..n], u).started {
      OpeningIs(parts, es[..n], u);
    } else {
      RunSound(parts, es[..n], u);
    }
  }

  // Without a click nothing happens before the target is open; and without a picked target there is no such click.
  lemma {:induction false} QuietUntilOpen(parts: seq<Part>, es: seq<Event>, u: Setup)
    requires !u.picked || NoEarlyClick(es)
    ensures Run(parts, es, u).started || Run(parts, es, u) == Initial(parts, u)
    ensures Open in es ==> Run(parts, es, u).started
    ensures Run(parts, es, u).started ==> Opening(parts, es, u) == Initial(parts, u)
  {
    hide Step, Enabled, NoEarlyClick, Initial;
    if es == [] {
      InitialQuiet(parts, u);
    } else {
      var n := |es| - 1;
      var s := Run(parts, es[..n], u);
      NoEarlyClickPrefix(es);
      QuietUntilOpen(parts, es[..n], u);
      assert es == es[..n] + [es[n]];
      FirstIsOpen(parts, es[n], u);
      NoEarlyClickLast(es);
      if Enabled(s, es[n], u) {
        StepStarts(s, es[n], u);
      }
    }
  }

  lemma InitialQuiet(parts: seq<Part>, u: Setup)
    ensures !Initial(parts, u).started
  {
  }

  lemma FirstIsOpen(parts: seq<Part>, e: Event, u: Setup)
    ensures Enabled(Initial(parts, u), Open, u)
    ensures Enabled(Initial(parts, u), e, u) ==> e.Open? || (e.Click? && u.picked)
    ensures !Initial(parts, u).started
  {
  }

  lemma NoEarlyClickPrefix(es: seq<Event>)
    requires es != []
    ensures NoEarlyClick(es) ==> NoEarlyClick(es[..|es| - 1])
  {
    var fs := es[..|es| - 1];
    assert forall i :: 0 <= i < |fs| ==> fs[i] == es[i] && fs[..i] == es[..i];
  }

  lemma NoEarlyClickLast(es: seq<Event>)
    requires es != []
    ensures NoEarlyClick(es) && es[|es| - 1].Click? ==> Open in es[..|es| - 1]
  {
  }

  lemma QuietSmooth(parts: seq<Part>, es: seq<Event>, u: Setup)
    requires !u.picked || NoEarlyClick(es)
    ensures Smooth(parts, es, u)
  {
    hide Run, Opening, NoEarlyClick;
    QuietUntilOpen(parts, es, u);
  }

  // ---- one call per part ----

  ghost predicate TwoCalls(s: State) {
    exists q, r :: 0 <= q < r < |s.runners| && s.runners[q].part == s.runners[r].part
                   && s.runners[q].Live() && s.runners[r].Live()
  }

  /** No part is ever fetched by two calls at once, provided that no call is alive when the target is opened. */
  lemma OneCallPerPart(parts: seq<Part>, es: seq<Event>, u: Setup)
    requires Fresh(parts, u) && Smooth(parts, es, u)
    ensures !TwoCalls(Run(parts, es, u))
  {
    hide Smooth, Fresh, Run;
    RunSound(parts, es, u);
  }

  lemma StartAppends(s: State, i: nat, max: nat)
    requires i < |s.parts|
    ensures var t := Start(s, i, 0, true, max); var n := |s.runners|;
            && (forall k :: 0 <= k < n ==> t.runners[k] == s.runners[k])
            && t.runners[n].part == i
            && (t.runners[n].Live() <==> s.parts[i].start + s.parts[i].received <= s.parts[i].end)
            && (i in t.registered ==> t.registered[i] == n)
  {
  }

  // What opening the target adds: calls of different parts, each alive exactly if its part lacks bytes
  ghost predicate Added(s: State, t: State, i: nat) {
    && |s.runners| <= |t.runners| && |t.parts| == |s.parts|
    && (forall k :: 0 <= k < |s.runners| ==> t.runners[k] == s.runners[k])
    && (forall k :: |s.runners| <= k < |t.runners| ==>
          var j := t.runners[k].part;
          i <= j < |s.parts| && (t.runners[k].Live() <==> s.parts[j].start + s.parts[j].received <= s.parts[j].end))
    && (forall k, m :: |s.runners| <= k < m < |t.runners| ==> t.runners[k].part != t.runners[m].part)
  }

  lemma AddedOne(s: State, t: State, v: State, i: nat)
    requires i < |s.parts| && |t.parts| == |s.parts| && |t.runners| == |s.runners| + 1
    requires forall k :: 0 <= k < |s.runners| ==> t.runners[k] == s.runners[k]
    requires t.runners[|s.runners|].part == i
    requires t.runners[|s.runners|].Live() <==> s.parts[i].start + s.parts[i].received <= s.parts[i].end
    requires forall j :: i < j < |s.parts| ==> t.parts[j] == s.parts[j]
    requires Added(t, v, i + 1)
    ensures Added(s, v, i)
  {
    assert v.runners[|s.runners|] == t.runners[|s.runners|];
  }

  lemma {:induction false} StartFromAdds(s: State, i: nat, u: Setup)
    requires i <= |s.parts|
    ensures Added(s, StartFrom(s, i, false, u), i)
    decreases |s.parts| - i
  {
    if i < |s.parts| {
      hide Start, Added;
      StartFromAddsHead(s, i, u);
      if s.parts[i].status != Completed {
        var t := Start(s, i, 0, true, u.max);
        StartFromAdds(t, i + 1, u);
        StartAppends(s, i, u.max);
        StartOnlyHere(s, i, 0, true, u.max);
        AddedOne(s, t, StartFrom(t, i + 1, false, u), i);
      } else {
        StartFromAdds(s, i + 1, u);
        AddedLess(s, StartFrom(s, i + 1, false, u), i);
      }
    }
  }

  lemma StartFromAddsHead(s: State, i: nat, u: Setup)
    requires i < |s.parts|
    ensures StartFrom(s, i, false, u)
            == StartFrom(if s.parts[i].status != Completed then Start(s, i, 0, true, u.max) else s, i + 1, false, u)
  {
    hide Start;
  }

  lemma AddedLess(s: State, t: State, i: nat)
    requires Added(s, t, i + 1)
    ensures Added(s, t, i)
  {
  }

  lemma AddedKeeps(s: State, t: State, i: nat, r: nat)
    requires Added(s, t, i) && r < |s.runners|
    ensures r < |t.runners| && t.runners[r] == s.runners[r]
  {
  }

  // Every part that is not completed gets a call.
  lemma {:induction false} StartFromReaches(s: State, i: nat, j: nat, u: Setup) returns (r: nat)
    requires i <= j < |s.parts| && s.parts[j].status != Completed
    ensures var t := StartFrom(s, i, false, u);
            && |s.runners| <= r < |t.runners| && t.runners[r].part == j
            && (j in t.registered ==> t.registered[j] == r)
    decreases j - i
  {
    hide Start, Added;
    StartFromAddsHead(s, i, u);
    StartAppends(s, i, u.max);
    StartOnlyHere(s, i, 0, true, u.max);
    var t := if s.parts[i].status != Completed then Start(s, i, 0, true, u.max) else s;
    if i == j {
      r := |s.runners|;
      StartFromAdds(t, i + 1, u);
      AddedKeeps(t, StartFrom(t, i + 1, false, u), i + 1, r);
      StartFromKeeps(t, i + 1, j, u);
    } else {
      r := StartFromReaches(t, i + 1, j, u);
    }
  }

  lemma {:induction false} StartFromKeeps(s: State, i: nat, j: nat, u: Setup)
    requires j < i <= |s.parts|
    ensures var t := StartFrom(s, i, false, u);
            j in t.registered <==> j in s.registered
    ensures j in s.registered ==> StartFrom(s, i, false, u).registered[j] == s.registered[j]
    decreases |s.parts| - i
  {
    if i < |s.parts| {
      StartFromAddsHead(s, i, u);
      StartElsewhere(s, i, j, u.max);
      hide Start;
      StartFromKeeps(if s.parts[i].status != Completed then Start(s, i, 0, true, u.max) else s, i + 1, j, u);
    }
  }

  lemma StartElsewhere(s: State, i: nat, j: nat, max: nat)
    requires i < |s.parts| && i != j
    ensures var t := Start(s, i, 0, true, max);
            (j in t.registered <==> j in s.registered) && (j in s.registered ==> t.registered[j] == s.registered[j])
  {
  }

  /** Opening the target keeps the invariant exactly when no call is alive at that moment. */
  lemma OpenSoundIff(s: State, u: Setup)
    requires Sound(s, u) && Enabled(s, Open, u)
    ensures Sound(Step(s, Open, u), u) <==> s.registered == map[]
  {
    hide Sound;
    if s.registered == map[] {
      StepSound(s, Open, u);
    } else {
      var i :| i in s.registered;
      ClickedCall(s, i, u);
      StillDownloading(s, i, u);
      var q, t := s.registered[i], s.(started := true);
      var r := StartFromReaches(t, 0, i, u);
      StartFromAdds(t, 0, u);
      if Sound(Step(s, Open, u), u) {
        RegisteredAt(Step(s, Open, u), q, u);
        OneLive(Step(s, Open, u), q, u);
        assert false;
      }
    }
  }

  lemma StillDownloading(s: State, i: nat, u: Setup)
    requires Sound(s, u) && i in s.registered
    ensures i < |s.parts| && s.registered[i] < |s.runners|
    ensures s.parts[i].status == Downloading && s.runners[s.registered[i]].part == i
  {
    assert Calls(s, i, s.registered[i]);
  }

  lemma OneLive(s: State, q: nat, u: Setup)
    requires Sound(s, u) && Has(s, q) && s.runners[q].Live()
    ensures s.runners[q].part in s.registered && s.registered[s.runners[q].part] == q
  {
  }

  lemma TwoCallsAtOpen(s: State, u: Setup)
    requires Sound(s, u) && Enabled(s, Open, u)
    ensures TwoCalls(Step(s, Open, u)) <==>
            exists i :: i in s.registered && i < |s.parts| && s.parts[i].start + s.parts[i].received <= s.parts[i].end
  {
    hide Sound, StartFrom, TwoCalls;
    var t := s.(started := true);
    var v := StartFrom(t, 0, false, u);
    StartFromAdds(t, 0, u);
    forall i | i in s.registered && i < |s.parts| && s.parts[i].start + s.parts[i].received <= s.parts[i].end
      ensures TwoCalls(v)
    {
      StillDownloading(s, i, u);
      ClickedCall(s, i, u);
      var r := StartFromReaches(t, 0, i, u);
      TwoCallsBy(v, s.registered[i], r);
    }
    if TwoCalls(v) {
      var q, r := TwoCallsFind(v);
      OldCalls(s, q, u);
      OldCalls(s, r, u);
    }
  }

  lemma TwoCallsBy(s: State, q: nat, r: nat)
    requires q < r < |s.runners| && s.runners[q].part == s.runners[r].part
    requires s.runners[q].Live() && s.runners[r].Live()
    ensures TwoCalls(s)
  {
  }

  lemma TwoCallsFind(s: State) returns (q: nat, r: nat)
    requires TwoCalls(s)
    ensures q < r < |s.runners| && s.runners[q].part == s.runners[r].part
    ensures s.runners[q].Live() && s.runners[r].Live()
  {
    q, r :| q < r < |s.runners| && s.runners[q].part == s.runners[r].part && s.runners[q].Live() && s.runners[r].Live();
  }

  lemma OldCalls(s: State, r: nat, u: Setup)
    requires Sound(s, u)
    ensures r < |s.runners| && s.runners[r].Live() ==>
              s.runners[r].part in s.registered && s.registered[s.runners[r].part] == r
    ensures forall i :: i in s.registered ==> i < |s.parts|
  {
    hide Positions, Content, Tiles;
    forall i | i in s.registered
      ensures i < |s.parts|
    {
      StillDownloading(s, i, u);
    }
  }

  /** After the target is opened some part has two live calls exactly when some part that still lacks bytes had one
      before: a click made while the target was being opened is then answered twice. */
  lemma TwoCallsIff(parts: seq<Part>, es: seq<Event>, u: Setup)
    requires Fresh(parts, u) && Enabled(Run(parts, es, u), Open, u)
    ensures var s := Run(parts, es, u);
            TwoCalls(Step(s, Open, u)) <==>
            exists i :: i in s.registered && i < |s.parts| && s.parts[i].start + s.parts[i].received <= s.parts[i].end
  {
    hide Fresh, Run, Smooth;
    NotStartedSmooth(parts, es, u);
    RunSound(parts, es, u);
    TwoCallsAtOpen(Run(parts, es, u), u);
  }

  lemma NotStartedSmooth(parts: seq<Part>, es: seq<Event>, u: Setup)
    requires !Run(parts, es, u).started
    ensures Smooth(parts, es, u)
  {
  }

  // ---- no wrong byte ----

  /** At every moment of every run that found no call alive when the target was opened: each byte of the target is
      the one it held before or the right one, the bytes a part counts as received are the right ones, in memory if
      they came before the target was open and in the target if they came after, and the total shown is their
      number. */
  lemma NeverAWrongByte(parts: seq<Part>, es: seq<Event>, u: Setup)
    requires Fresh(parts, u) && Smooth(parts, es, u)
    ensures var s := Run(parts, es, u);
            && OldOrRight(s.disk, u)
            && s.totalReceived == SumReceived(s.parts)
            && forall i :: 0 <= i < |s.parts| ==>
                 var p, blob := s.parts[i], BlobOf(s.blobs, i);
                 && |blob| <= p.received && Gathered(blob, p.start, u)
                 && if Writable(s, u) then Stored(s.disk, p.start + |blob|, p.received - |blob|, u)
                    else |blob| == p.received
  {
    hide Run, Smooth, Fresh, OldOrRight, Stored, Gathered, Untouched, Tiles, Registry, Positions, Extent;
    RunSound(parts, es, u);
    var s := Run(parts, es, u);
    assert forall i :: 0 <= i < |s.parts| ==>
        PartContent(s.parts[i], BlobOf(s.blobs, i), s.disk, Writable(s, u), u);
  }

  // ---- the finished file ----

  ghost predicate AllFull(parts: seq<Part>) {
    forall i :: 0 <= i < |parts| ==> parts[i].Full()
  }

  ghost function Result(s: State, u: Setup): seq<Byte> {
    if Writable(s, u) then s.disk else Assemble(s.blobs, |s.parts|)
  }

  lemma StepOutcome(s: State, e: Event, u: Setup)
    requires Enabled(s, e, u) && !e.Poll?
    ensures Step(s, e, u).outcome == s.outcome
  {
    hide BeginAttempt, Start, Voluntary, StreamError, StartFrom, WriteAt, OnHeaders, CheckSpeed, OnFinish, Refresh;
  }

  lemma {:induction false} FinalizedResult(parts: seq<Part>, es: seq<Event>, u: Setup)
    ensures var s := Run(parts, es, u);
            s.outcome.Finalized? ==> s.started && AllCompleted(s) && s.outcome.content == Result(s, u)
  {
    hide Step, Enabled, AllCompleted, Result;
    if es != [] {
      var n := |es| - 1;
      var s := Run(parts, es[..n], u);
      FinalizedResult(parts, es[..n], u);
      if Enabled(s, es[n], u) {
        if es[n].Poll? {
          PollResult(s, u);
        } else {
          StepOutcome(s, es[n], u);
          StillRunning(s, es[n], u);
        }
      }
    }
  }

  lemma StillRunning(s: State, e: Event, u: Setup)
    requires Enabled(s, e, u)
    ensures s.outcome == Running
  {
  }

  lemma PollResult(s: State, u: Setup)
    requires Enabled(s, Poll, u)
    ensures var t := Step(s, Poll, u);
            t.outcome.Finalized? ==> t.started && AllCompleted(t) && t.outcome.content == Result(t, u)
  {
    hide StartFrom, Assemble;
  }

  // The first n parts in memory, as they are put together
  ghost predicate InMemory(s: State, n: nat, u: Setup) {
    && n <= |s.parts| && Tiles(s.parts, |u.source|)
    && forall i :: 0 <= i < n ==>
         |BlobOf(s.blobs, i)| <= s.parts[i].Size() && Gathered(BlobOf(s.blobs, i), s.parts[i].start, u)
  }

  ghost predicate BlobsFull(s: State, n: nat)
    requires n <= |s.parts|
  {
    forall i :: 0 <= i < n ==> |BlobOf(s.blobs, i)| == s.parts[i].Size()
  }

  lemma BlobsFullNext(s: State, n: nat)
    requires 0 < n <= |s.parts|
    ensures BlobsFull(s, n) <==> BlobsFull(s, n - 1) && |BlobOf(s.blobs, n - 1)| == s.parts[n - 1].Size()
  {
    hide BlobOf;
  }

  lemma {:induction false} AssembledLength(s: State, n: nat, u: Setup)
    requires 0 < n && InMemory(s, n, u)
    ensures |Assemble(s.blobs, n)| <= s.parts[n - 1].end + 1
    ensures |Assemble(s.blobs, n)| == s.parts[n - 1].end + 1 <==> BlobsFull(s, n)
  {
    hide Gathered, Tiles, BlobOf, BlobsFull;
    NextPart(s, n - 1, u);
    BlobsFullNext(s, n);
    if n > 1 {
      AssembledLength(s, n - 1, u);
    } else {
      assert Assemble(s.blobs, 0) == [];
      NoBlobs(s);
    }
  }

  lemma NoBlobs(s: State)
    ensures BlobsFull(s, 0)
  {
  }

  lemma NextPart(s: State, i: nat, u: Setup)
    requires Tiles(s.parts, |u.source|) && i < |s.parts|
    ensures s.parts[i].start == if i == 0 then 0 else s.parts[i - 1].end + 1
    ensures s.parts[i].start <= s.parts[i].end < |u.source|
  {
    TilesWithin(s.parts, |u.source|, i);
    if i > 0 {
      var j := i - 1;
      assert s.parts[i].start == s.parts[j].end + 1;
    }
  }

  lemma {:induction false} AssembledBytes(s: State, n: nat, u: Setup)
    requires 0 < n && InMemory(s, n, u) && BlobsFull(s, n)
    ensures s.parts[n - 1].end + 1 <= |u.source| && Assemble(s.blobs, n) == u.source[..s.parts[n - 1].end + 1]
  {
    hide Tiles, BlobOf, BlobsFull;
    var p := s.parts[n - 1];
    NextPart(s, n - 1, u);
    BlobsFullNext(s, n);
    assert Gathered(BlobOf(s.blobs, n - 1), p.start, u);
    if n > 1 {
      AssembledBytes(s, n - 1, u);
      SourceJoin(u.source, 0, p.start, p.end + 1);
    } else {
      assert Assemble(s.blobs, 0) == [];
    }
  }

  lemma SoundInMemory(s: State, u: Setup)
    requires Sound(s, u) && !Writable(s, u)
    ensures InMemory(s, |s.parts|, u) && 0 < |s.parts| && s.parts[|s.parts| - 1].end + 1 == |u.source|
    ensures AllFull(s.parts) <==> BlobsFull(s, |s.parts|)
  {
    hide Registry, OldOrRight, Extent, Gathered;
    assert forall i :: 0 <= i < |s.parts| ==> PartContent(s.parts[i], BlobOf(s.blobs, i), s.disk, false, u);
  }

  /** Without a picked target, the saved file is the source exactly when every part got all its bytes. */
  lemma SavedBlob(parts: seq<Part>, es: seq<Event>, u: Setup)
    requires Fresh(parts, u) && !u.picked && Run(parts, es, u).outcome.Finalized?
    ensures Run(parts, es, u).outcome.content == u.source <==> AllFull(Run(parts, es, u).parts)
  {
    var s := Run(parts, es, u);
    hide Run, Smooth, Fresh, Sound, InMemory, Assemble, AllFull;
    QuietSmooth(parts, es, u);
    RunSound(parts, es, u);
    FinalizedResult(parts, es, u);
    SoundInMemory(s, u);
    AssembledLength(s, |s.parts|, u);
    if AllFull(s.parts) {
      AssembledBytes(s, |s.parts|, u);
      assert u.source[..|u.source|] == u.source;
    }
  }

  // ---- what came before the target was open ----

  // The same ranges, and the same bytes in memory
  ghost predicate Carries(s: State, t: State) {
    && t.blobs == s.blobs && |t.parts| == |s.parts|
    && forall i :: 0 <= i < |s.parts| ==> t.parts[i].start == s.parts[i].start && t.parts[i].end == s.parts[i].end
  }

  lemma ErrorCarries(s: State, r: nat)
    requires Has(s, r)
    ensures Carries(s, Voluntary(s, r)) && Carries(s, Consume(s, r)) && Carries(s, StreamError(s, r))
  {
  }

  lemma HeadersCarries(s: State, r: nat, reply: Reply)
    requires Has(s, r)
    ensures Carries(s, OnHeaders(s, r, reply))
  {
    hide Consume;
    ErrorCarries(s, r);
  }

  lemma SpeedCarries(s: State, r: nat, slow: bool)
    requires Has(s, r)
    ensures Carries(s, CheckSpeed(s, r, slow))
  {
    hide StreamError;
    ErrorCarries(s, r);
  }

  lemma BeginCarries(s: State, r: nat, attempt: nat)
    requires Has(s, r)
    ensures Carries(s, BeginAttempt(s, r, attempt))
  {
  }

  lemma FinishCarries(s: State, r: nat)
    requires Has(s, r)
    ensures Carries(s, OnFinish(s, r))
  {
    hide Voluntary;
    ErrorCarries(s, r);
  }

  lemma StartCarries(s: State, i: nat, auto: nat, observed: bool, max: nat)
    requires i < |s.parts|
    ensures Carries(s, Start(s, i, auto, observed, max))
  {
  }

  lemma {:induction false} StartFromCarries(s: State, i: nat, failedOnly: bool, u: Setup)
    requires i <= |s.parts|
    ensures Carries(s, StartFrom(s, i, failedOnly, u))
    decreases |s.parts| - i
  {
    hide Start;
    if i < |s.parts| {
      var chosen := if failedOnly then s.parts[i].status == Failed else s.parts[i].status != Completed;
      var auto := if failedOnly then s.parts[i].lastAuto else 0;
      StartCarries(s, i, auto, true, u.max);
      StartFromCarries(if chosen then Start(s, i, auto, true, u.max) else s, i + 1, failedOnly, u);
    }
  }

  lemma PollCarries(s: State, u: Setup)
    ensures Carries(s, OnPoll(s, u))
  {
    hide StartFrom, Assemble;
    StartFromCarries(s.(phase2 := true), 0, true, u);
  }

  lemma ClickCarries(s: State, i: nat, u: Setup)
    ensures Carries(s, OnClick(s, i, u))
  {
    hide Start;
    if i < |s.parts| {
      StartCarries(s, i, s.parts[i].lastAuto, false, u.max);
    }
  }

  lemma StepCarries(s: State, e: Event, u: Setup)
    requires Enabled(s, e, u) && (e.Written? ==> s.runners[e.r].stage.target.Some?)
    ensures Carries(s, Step(s, e, u))
  {
    hide BeginAttempt, Start, Voluntary, StreamError, StartFrom, WriteAt, OnHeaders, CheckSpeed, OnFinish, OnClick, OnPoll;
    match e
    case Open => StartFromCarries(s.(started := true), 0, false, u);
    case Poll => PollCarries(s, u);
    case Click(i) => ClickCarries(s, i, u);
    case Headers(r, reply) => HeadersCarries(s, r, reply);
    case Chunk(r, bytes) =>
    case Written(r, slow) => SpeedCarries(Store(s, r), r, slow);
    case WriteFailed(r, landed) => ErrorCarries(LoseWrite(s, r, landed), r);
    case Finish(r) => FinishCarries(s, r);
    case Break(r) => ErrorCarries(s, r);
    case AbortRead(r) => ErrorCarries(s, r);
    case Wake(r) => BeginCarries(s, r, s.runners[r].attempt + 1);
  }

  lemma WritesToFile(s: State, e: Event, u: Setup)
    requires Sound(s, u) && Writable(s, u) && Enabled(s, e, u) && e.Written?
    ensures s.runners[e.r].stage.target.Some?
  {
    hide Sound;
    PlacedAt(s, e.r, u);
  }

  // From the moment the target is open nothing more goes to memory.
  lemma {:induction false} EarlyKept(parts: seq<Part>, es: seq<Event>, u: Setup)
    requires Fresh(parts, u) && Smooth(parts, es, u) && u.picked && Run(parts, es, u).started
    ensures Carries(Opening(parts, es, u), Run(parts, es, u))
  {
    hide Sound, Step, Enabled, Fresh;
    var n := |es| - 1;
    var s := Run(parts, es[..n], u);
    if s.started {
      EarlyKept(parts, es[..n], u);
      if Enabled(s, es[n], u) {
        RunSound(parts, es[..n], u);
        if es[n].Written? { WritesToFile(s, es[n], u); }
        StepCarries(s, es[n], u);
      }
    } else {
      StepStarts(s, es[n], u);
      StepCarries(s, es[n], u);
    }
  }

  /** The source, followed by whatever an older and longer file still had behind it */
  ghost function Expected(u: Setup): seq<Byte> {
    u.source + if |u.source| < |u.existing| then u.existing[|u.source|..] else []
  }

  // Byte p of part i went to memory, because the target was not open yet; or it came later.
  ghost predicate EarlyByte(o: State, i: int, p: int) {
    0 <= i < |o.parts| && o.parts[i].start <= p < o.parts[i].start + |BlobOf(o.blobs, i)|
  }

  ghost predicate LateByte(o: State, i: int, p: int) {
    0 <= i < |o.parts| && o.parts[i].start + |BlobOf(o.blobs, i)| <= p <= o.parts[i].end
  }

  // What went to memory before the target was open never reaches it. It still ends up right if it held those
  // bytes already and the part at its end is not among them, or the old file was long enough.
  ghost predicate Harmless(o: State, u: Setup) {
    && (forall i, p :: EarlyByte(o, i, p) ==> p < |u.source| && Before(u, p) == u.source[p])
    && (|u.existing| < |u.source| && o.parts != [] ==>
          |BlobOf(o.blobs, |o.parts| - 1)| < o.parts[|o.parts| - 1].Size())
  }

  lemma CarriesBack(s: State, t: State)
    requires Carries(s, t)
    ensures Carries(t, s)
  {
  }

  lemma HarmlessSame(o: State, s: State, u: Setup)
    requires Carries(o, s)
    ensures Harmless(o, u) ==> Harmless(s, u)
  {
    hide BlobOf, Before, EarlyByte;
    forall i, p | EarlyByte(s, i, p)
      ensures EarlyByte(o, i, p)
    {
      SameEarly(o, s, i, p);
    }
    var last := |s.parts| - 1;
    assert s.parts != [] ==> s.parts[last].start == o.parts[last].start && s.parts[last].end == o.parts[last].end;
  }

  lemma SameEarly(o: State, s: State, i: int, p: int)
    requires Carries(o, s)
    ensures EarlyByte(o, i, p) <==> EarlyByte(s, i, p)
    ensures LateByte(o, i, p) <==> LateByte(s, i, p)
  {
    hide BlobOf;
  }

  lemma FinalByte(s: State, i: nat, p: nat, u: Setup)
    requires Sound(s, u) && Writable(s, u) && AllFull(s.parts)
    ensures EarlyByte(s, i, p) && p < |s.disk| ==> s.disk[p] == Before(u, p)
    ensures LateByte(s, i, p) ==> p < |s.disk| && p < |u.source| && s.disk[p] == u.source[p]
  {
    hide Registry, Positions, OldOrRight, Extent, SumReceived, BlobOf;
    if i < |s.parts| {
      var q, blob := s.parts[i], BlobOf(s.blobs, i);
      assert PartContent(q, blob, s.disk, true, u);
      StoredPoints(s.disk, q.start + |blob|, q.received - |blob|, u);
    }
  }

  lemma FinalLength(s: State, u: Setup)
    requires Sound(s, u) && Writable(s, u) && AllFull(s.parts)
    ensures var last := |s.parts| - 1;
            && last >= 0 && |u.existing| <= |s.disk| <= Max(|u.existing|, |u.source|)
            && (|u.existing| < |u.source| ==>
                  (|s.disk| == |u.source| <==> |BlobOf(s.blobs, last)| < s.parts[last].Size()))
  {
    hide Registry, Positions, SumReceived, BlobOf, Stored, Untouched, Gathered;
    var last := |s.parts| - 1;
    var q, blob := s.parts[last], BlobOf(s.blobs, last);
    assert PartContent(q, blob, s.disk, true, u) && q.Full() && q.end + 1 == |u.source|;
    if |blob| < q.Size() {
      StoredPoints(s.disk, q.start + |blob|, q.received - |blob|, u);
    } else if |u.existing| < |s.disk| == |u.source| {
      var i :| 0 <= i < |s.parts| && |BlobOf(s.blobs, i)| < s.parts[i].Size() && |s.disk| <= s.parts[i].end + 1;
      if i < last {
        TilesOrdered(s.parts, |u.source|, i, last);
      }
    }
  }

  lemma ExpectedAt(u: Setup, p: nat)
    ensures |Expected(u)| == Max(|u.existing|, |u.source|)
    ensures p < |Expected(u)| ==> Expected(u)[p] == if p < |u.source| then u.source[p] else Before(u, p)
  {
  }

  lemma RightIsHarmless(s: State, u: Setup)
    requires Sound(s, u) && Writable(s, u) && AllFull(s.parts) && s.disk == Expected(u)
    ensures Harmless(s, u)
  {
    ExpectedAt(u, 0);
    FinalLength(s, u);
    forall i, p | EarlyByte(s, i, p)
      ensures p < |u.source| && Before(u, p) == u.source[p]
    {
      BlobInside(s, i, u);
      FinalByte(s, i, p, u);
      ExpectedAt(u, p);
    }
    hide Sound, BlobOf, Expected, Before;
  }

  lemma BlobInside(s: State, i: nat, u: Setup)
    requires Sound(s, u) && i < |s.parts|
    ensures s.parts[i].start + |BlobOf(s.blobs, i)| <= s.parts[i].end + 1 <= |u.source|
  {
    hide Registry, OldOrRight, Extent, SumReceived, BlobOf, Gathered, Stored, Untouched;
    TilesWithin(s.parts, |u.source|, i);
    assert PartContent(s.parts[i], BlobOf(s.blobs, i), s.disk, Writable(s, u), u);
  }

  lemma HarmlessIsRight(s: State, u: Setup)
    requires Sound(s, u) && Writable(s, u) && AllFull(s.parts) && Harmless(s, u)
    ensures s.disk == Expected(u)
  {
    hide Sound, Before, BlobOf;
    ExpectedAt(u, 0);
    FinalLength(s, u);
    assert |s.disk| == |Expected(u)|;
    forall p: nat | p < |s.disk|
      ensures s.disk[p] == Expected(u)[p]
    {
      ExpectedAt(u, p);
      if p < |u.source| {
        var i := SoundFind(s, p, u);
        FinalByte(s, i, p, u);
      } else {
        SoundOldOrRight(s, u);
      }
    }
  }

  lemma SoundFind(s: State, p: nat, u: Setup) returns (i: nat)
    requires Sound(s, u) && p < |u.source|
    ensures EarlyByte(s, i, p) || LateByte(s, i, p)
  {
    i := TilesFind(s.parts, |u.source|, p, |s.parts|);
  }

  // Where the bytes of a finished target come from: what was early is as before, the rest of the source is right,
  // and behind it an older and longer file is unchanged.
  ghost predicate Origin(o: State, content: seq<Byte>, u: Setup) {
    && |u.existing| <= |content| <= Max(|u.existing|, |u.source|)
    && (forall i, p: nat :: EarlyByte(o, i, p) && p < |content| ==> content[p] == Before(u, p))
    && (forall i, p: nat :: LateByte(o, i, p) ==> p < |content| && p < |u.source| && content[p] == u.source[p])
    && (forall p: nat :: |u.source| <= p < |content| ==> content[p] == Before(u, p))
  }

  lemma FinalOrigin(o: State, s: State, u: Setup)
    requires Carries(o, s) && Sound(s, u) && Writable(s, u) && AllFull(s.parts)
    ensures Origin(o, s.disk, u)
  {
    hide Sound, BlobOf, Before, AllFull, EarlyByte, LateByte;
    forall i, p: nat | EarlyByte(o, i, p) && p < |s.disk|
      ensures s.disk[p] == Before(u, p)
    {
      SameEarly(o, s, i, p);
      PartOf(s, i, p);
      FinalByte(s, i, p, u);
    }
    forall i, p: nat | LateByte(o, i, p)
      ensures p < |s.disk| && p < |u.source| && s.disk[p] == u.source[p]
    {
      SameEarly(o, s, i, p);
      PartOf(s, i, p);
      FinalByte(s, i, p, u);
    }
    SoundOldOrRight(s, u);
  }

  lemma PartOf(s: State, i: int, p: int)
    ensures EarlyByte(s, i, p) || LateByte(s, i, p) ==> 0 <= i
  {
  }

  lemma SoundOldOrRight(s: State, u: Setup)
    requires Sound(s, u)
    ensures |u.existing| <= |s.disk| <= Max(|u.existing|, |u.source|)
    ensures forall p: nat :: |u.source| <= p < |s.disk| ==> s.disk[p] == Before(u, p)
  {
    hide Registry, Positions, Extent, SumReceived, PartsContent, Tiles;
  }

  /** With a picked target, once every part got all its bytes: a byte that came before the target was open is still
      the old one, every other byte of the source is right, and behind the source is what an older and longer file
      still had there. The file is the expected one exactly if what came early is harmless. */
  lemma SavedFile(parts: seq<Part>, es: seq<Event>, u: Setup)
    requires Fresh(parts, u) && Smooth(parts, es, u) && u.picked
    requires Run(parts, es, u).outcome.Finalized? && AllFull(Run(parts, es, u).parts)
    ensures Run(parts, es, u).started
    ensures var content := Run(parts, es, u).outcome.content; var o := Opening(parts, es, u);
            Origin(o, content, u) && (content == Expected(u) <==> Harmless(o, u))
  {
    hide Run, Opening, Smooth, Fresh, Sound, Harmless, Origin, Expected, AllFull;
    var s := Run(parts, es, u);
    RunSound(parts, es, u);
    FinalizedResult(parts, es, u);
    EarlyKept(parts, es, u);
    var o := Opening(parts, es, u);
    FinalOrigin(o, s, u);
    HarmlessSame(o, s, u);
    CarriesBack(o, s);
    HarmlessSame(s, o, u);
    if Harmless(s, u) { HarmlessIsRight(s, u); }
    if s.disk == Expected(u) { RightIsHarmless(s, u); }
  }

  // ---- what the clean end of a body is needed for ----

  // A body that ends without an error has delivered the whole range.
  ghost predicate CleanEnd(s: State, e: Event) {
    e.Finish? && Has(s, e.r) ==> s.runners[e.r].position == s.parts[s.runners[e.r].part].end + 1
  }

  ghost predicate CleanRun(parts: seq<Part>, es: seq<Event>, u: Setup) {
    es == [] ||
    (CleanRun(parts, es[..|es| - 1], u) && CleanEnd(Run(parts, es[..|es| - 1], u), es[|es| - 1]))
  }

  ghost predicate DoneIsFull(s: State) {
    forall i :: 0 <= i < |s.parts| && s.parts[i].status == Completed ==> s.parts[i].Full()
  }

  ghost predicate NoneOverfull(s: State) {
    forall i :: 0 <= i < |s.parts| ==> s.parts[i].received <= s.parts[i].Size()
  }

  lemma SoundNoneOverfull(s: State, u: Setup)
    requires Sound(s, u)
    ensures NoneOverfull(s)
  {
  }

  lemma BeginAttemptFull(s: State, r: nat, attempt: nat)
    requires DoneIsFull(s) && NoneOverfull(s) && Has(s, r)
    ensures DoneIsFull(BeginAttempt(s, r, attempt))
  {
  }

  lemma StartFull(s: State, i: nat, auto: nat, observed: bool, max: nat)
    requires DoneIsFull(s) && NoneOverfull(s) && i < |s.parts|
    ensures DoneIsFull(Start(s, i, auto, observed, max)) && NoneOverfull(Start(s, i, auto, observed, max))
  {
  }

  lemma {:induction false} StartFromFull(s: State, i: nat, failedOnly: bool, u: Setup)
    requires DoneIsFull(s) && NoneOverfull(s) && i <= |s.parts|
    ensures DoneIsFull(StartFrom(s, i, failedOnly, u))
    decreases |s.parts| - i
  {
    hide Start, DoneIsFull, NoneOverfull;
    if i < |s.parts| {
      var chosen := if failedOnly then s.parts[i].status == Failed else s.parts[i].status != Completed;
      var auto := if failedOnly then s.parts[i].lastAuto else 0;
      StartFull(s, i, auto, true, u.max);
      StartFromFull(if chosen then Start(s, i, auto, true, u.max) else s, i + 1, failedOnly, u);
    }
  }

  lemma SameFull(s: State, t: State)
    requires DoneIsFull(s) && t.parts == s.parts
    ensures DoneIsFull(t)
    ensures NoneOverfull(s) ==> NoneOverfull(t)
  {
  }

  lemma StepFull(s: State, e: Event, u: Setup)
    requires DoneIsFull(s) && Sound(s, u) && Enabled(s, e, u) && CleanEnd(s, e)
    ensures DoneIsFull(Step(s, e, u))
  {
    hide Sound, StartFrom, Start, BeginAttempt, OnHeaders, CheckSpeed, StreamError, Voluntary, OnFinish, WriteAt;
    hide DoneIsFull, NoneOverfull;
    SoundNoneOverfull(s, u);
    match e
    case Open =>
      SameFull(s, s.(started := true));
      StartFromFull(s.(started := true), 0, false, u);
    case Poll =>
      SameFull(s, s.(phase2 := true));
      SameFull(s, s.(outcome := OnPoll(s, u).outcome));
      StartFromFull(s.(phase2 := true), 0, true, u);
    case Click(i) => ClickFull(s, i, u);
    case Wake(r) => BeginAttemptFull(s, r, s.runners[r].attempt + 1);
    case Written(r, slow) =>
      StoreFull(s, r, u);
      SpeedFull(Store(s, r), r, slow);
    case Finish(r) => FinishFull(s, r, u);
    case Headers(r, reply) => HeadersFull(s, r, reply);
    case Break(r) => StreamErrorFull(s, r);
    case WriteFailed(r, landed) =>
      SameFull(s, LoseWrite(s, r, landed));
      StreamErrorFull(LoseWrite(s, r, landed), r);
    case AbortRead(r) => StreamErrorFull(s, r);
    case Chunk(r, bytes) => SameFull(s, Step(s, e, u));
  }

  lemma StreamErrorFull(s: State, r: nat)
    requires DoneIsFull(s) && Has(s, r)
    ensures DoneIsFull(Voluntary(s, r)) && DoneIsFull(Consume(s, r)) && DoneIsFull(StreamError(s, r))
  {
  }

  lemma SpeedFull(s: State, r: nat, slow: bool)
    requires DoneIsFull(s) && Has(s, r)
    ensures DoneIsFull(CheckSpeed(s, r, slow))
  {
    hide StreamError;
    StreamErrorFull(s, r);
  }

  lemma HeadersFull(s: State, r: nat, reply: Reply)
    requires DoneIsFull(s) && Has(s, r)
    ensures DoneIsFull(OnHeaders(s, r, reply))
  {
    hide Consume;
    StreamErrorFull(s, r);
  }

  lemma FinishFull(s: State, r: nat, u: Setup)
    requires DoneIsFull(s) && Sound(s, u) && Enabled(s, Finish(r), u) && CleanEnd(s, Finish(r))
    ensures DoneIsFull(OnFinish(s, r))
  {
    hide Sound;
    PlacedAt(s, r, u);
  }

  // While a part is being written it is not completed, so the completed ones keep their bytes.
  lemma StoreFull(s: State, r: nat, u: Setup)
    requires DoneIsFull(s) && Sound(s, u) && Has(s, r) && s.runners[r].stage.Writing?
    ensures DoneIsFull(Store(s, r))
  {
    hide Sound, WriteAt, BlobOf;
    OneLive(s, r, u);
    StillDownloading(s, s.runners[r].part, u);
  }

  lemma ClickFull(s: State, i: nat, u: Setup)
    requires DoneIsFull(s) && NoneOverfull(s)
    ensures DoneIsFull(OnClick(s, i, u))
  {
    hide Start, DoneIsFull, NoneOverfull;
    SameFull(s, OnClickFlag(s, i, u));
    if i < |s.parts| {
      StartFull(s, i, s.parts[i].lastAuto, false, u.max);
    }
  }

  ghost function OnClickFlag(s: State, i: nat, u: Setup): (t: State)
    ensures t.parts == s.parts
  {
    if i in s.registered && i in s.controllers && Has(s, s.registered[i]) && Has(s, s.controllers[i]) then
      Refresh(s, s.registered[i], s.controllers[i], u.max)
    else
      s
  }

  lemma {:induction false} CleanRunDoneIsFull(parts: seq<Part>, es: seq<Event>, u: Setup)
    requires Fresh(parts, u) && Smooth(parts, es, u) && CleanRun(parts, es, u)
    ensures DoneIsFull(Run(parts, es, u))
  {
    hide Sound, Step, Enabled, CleanEnd;
    if es != [] {
      var n := |es| - 1;
      var s := Run(parts, es[..n], u);
      SmoothPrefix(parts, es, u);
      CleanRunDoneIsFull(parts, es[..n], u);
      RunSound(parts, es[..n], u);
      if Enabled(s, es[n], u) {
        StepFull(s, es[n], u);
      }
    }
  }

  /** When bodies only end after their last byte, a finished transfer has every byte of every part. */
  lemma CleanRunFull(parts: seq<Part>, es: seq<Event>, u: Setup)
    requires Fresh(parts, u) && Smooth(parts, es, u) && CleanRun(parts, es, u)
    requires Run(parts, es, u).outcome.Finalized?
    ensures AllFull(Run(parts, es, u).parts)
  {
    hide Run, Smooth, CleanRun, Fresh, Result;
    CleanRunDoneIsFull(parts, es, u);
    FinalizedResult(parts, es, u);
  }

  /** The download is right: however chunks, breaks, reconnects, clicks and the second phase interleave, a transfer
      that finishes has saved the source, if nobody clicked while the picked target was being opened. */
  lemma FinishedIsSource(parts: seq<Part>, es: seq<Event>, u: Setup)
    requires Fresh(parts, u) && CleanRun(parts, es, u) && Run(parts, es, u).outcome.Finalized?
    requires !u.picked || NoEarlyClick(es)
    ensures Run(parts, es, u).outcome.content == if u.picked then Expected(u) else u.source
  {
    hide Run, CleanRun, Fresh, Smooth, Opening, NoEarlyClick, Initial, Harmless, Expected, AllFull;
    QuietSmooth(parts, es, u);
    CleanRunFull(parts, es, u);
    if u.picked {
      FinalizedResult(parts, es, u);
      QuietUntilOpen(parts, es, u);
      InitialHarmless(parts, u);
      SavedFile(parts, es, u);
    } else {
      SavedBlob(parts, es, u);
    }
  }

  lemma InitialHarmless(parts: seq<Part>, u: Setup)
    requires Fresh(parts, u)
    ensures Harmless(Initial(parts, u), u)
  {
  }

  /** And if somebody did: as long as no call was alive when the target was opened, the finished file is the
      expected one exactly when the target already held every byte that had arrived, and reaches its end without
      them. */
  lemma FinishedIsSourceIff(parts: seq<Part>, es: seq<Event>, u: Setup)
    requires Fresh(parts, u) && CleanRun(parts, es, u) && Run(parts, es, u).outcome.Finalized?
    requires u.picked && Smooth(parts, es, u)
    ensures Run(parts, es, u).started
    ensures Run(parts, es, u).outcome.content == Expected(u) <==> Harmless(Opening(parts, es, u), u)
  {
    hide Run, CleanRun, Fresh, Smooth, Opening, Harmless, Expected, AllFull;
    CleanRunFull(parts, es, u);
    SavedFile(parts, es, u);
  }

  /** What is in memory when the target is opened is what each part has received. */
  lemma EarlyIsReceived(parts: seq<Part>, es: seq<Event>, u: Setup)
    requires Fresh(parts, u) && !Run(parts, es, u).started
    ensures var o := Run(parts, es, u); forall i :: 0 <= i < |o.parts| ==> |BlobOf(o.blobs, i)| == o.parts[i].received
  {
    hide Run, Smooth, Fresh, Registry, Positions, Extent, OldOrRight, Tiles, SumReceived, Gathered;
    NotStartedSmooth(parts, es, u);
    RunSound(parts, es, u);
    var o := Run(parts, es, u);
    assert forall i :: 0 <= i < |o.parts| ==> PartContent(o.parts[i], BlobOf(o.blobs, i), o.disk, Writable(o, u), u);
  }
}
