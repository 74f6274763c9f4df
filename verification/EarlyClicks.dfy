/** Runs of the parallel download in which the user restarts a part while the picked file is still being opened and
    every body arrives whole: the saved file may be wrong, or right (next-frontend/app/lib/workerConnection.ts,
    downloadWorkerLocalFile). */
module EarlyClicks {
  import opened Basics
  import opened ByteRanges
  import opened Transfer
  import opened TransferSafety
  import opened TransferResults

  // One call fetches its whole range in a single chunk.
  ghost function Fetch(r: nat, bytes: seq<Byte>): seq<Event> {
    [Headers(r, Partial), Chunk(r, bytes), Written(r, false), Finish(r)]
  }

  ghost predicate CanFetch(s: State, r: nat, bytes: seq<Byte>, u: Setup) {
    && s.outcome == Running && Has(s, r) && bytes != []
    && var x := s.runners[r];
       && x.stage.Connecting? && !x.flag.requested
       && x.position + |bytes| == s.parts[x.part].end + 1 <= |u.source|
       && bytes == u.source[x.position..x.position + |bytes|]
  }

  ghost function Sent(s: State, r: nat, bytes: seq<Byte>, u: Setup): (t: State)
    requires CanFetch(s, r, bytes, u)
    ensures Has(t, r) && t.runners[r].stage.Writing?
  {
    var x := s.runners[r];
    SetRunner(s, r, x.(stage := Writing(bytes, Target(s, x.part, u)), position := x.position + |bytes|))
  }

  ghost function Fetched(s: State, r: nat, bytes: seq<Byte>, u: Setup): State
    requires CanFetch(s, r, bytes, u)
  {
    var t := Store(Sent(s, r, bytes, u), r);
    End(t, r, t.runners[r], Completed, false)
  }

  lemma Snoc(parts: seq<Part>, es: seq<Event>, e: Event, u: Setup)
    requires Enabled(Run(parts, es, u), e, u)
    ensures Run(parts, es + [e], u) == Step(Run(parts, es, u), e, u)
    ensures CleanRun(parts, es, u) && CleanEnd(Run(parts, es, u), e) ==> CleanRun(parts, es + [e], u)
  {
    hide Step, Enabled, CleanEnd;
    RunSnoc(parts, es, e, u);
    assert (es + [e])[..|es|] == es;
  }

  lemma SmoothSnoc(parts: seq<Part>, es: seq<Event>, e: Event, u: Setup)
    requires Smooth(parts, es, u)
    requires Run(parts, es, u).started || Run(parts, es, u).registered == map[]
    ensures Smooth(parts, es + [e], u)
  {
    hide Step, Enabled;
    assert (es + [e])[..|es|] == es;
  }

  // The four events of a fetch, one after the other
  lemma FetchRun(parts: seq<Part>, es: seq<Event>, r: nat, bytes: seq<Byte>, u: Setup)
    requires CleanRun(parts, es, u) && CanFetch(Run(parts, es, u), r, bytes, u)
    ensures Run(parts, es + Fetch(r, bytes), u) == Fetched(Run(parts, es, u), r, bytes, u)
    ensures CleanRun(parts, es + Fetch(r, bytes), u)
    ensures Smooth(parts, es, u) && Run(parts, es, u).started ==> Smooth(parts, es + Fetch(r, bytes), u)
  {
    hide Run, CleanRun, Smooth, Fetched, Sent, CanFetch;
    FetchSends(parts, es, r, bytes, u);
    FetchStores(parts, es + [Headers(r, Partial)] + [Chunk(r, bytes)], Run(parts, es, u), r, bytes, u);
    assert es + Fetch(r, bytes) == es + [Headers(r, Partial)] + [Chunk(r, bytes)] + [Written(r, false)] + [Finish(r)];
  }

  lemma FetchSends(parts: seq<Part>, es: seq<Event>, r: nat, bytes: seq<Byte>, u: Setup)
    requires CleanRun(parts, es, u) && CanFetch(Run(parts, es, u), r, bytes, u)
    ensures var fs := es + [Headers(r, Partial)] + [Chunk(r, bytes)];
            && Run(parts, fs, u) == Sent(Run(parts, es, u), r, bytes, u) && CleanRun(parts, fs, u)
            && (Smooth(parts, es, u) && Run(parts, es, u).started ==> Smooth(parts, fs, u))
  {
    hide Run, CleanRun, Smooth;
    var s := Run(parts, es, u);
    var x := s.runners[r];
    Snoc(parts, es, Headers(r, Partial), u);
    Snoc(parts, es + [Headers(r, Partial)], Chunk(r, bytes), u);
    assert s.runners[r := x.(stage := Reading)][r := Sent(s, r, bytes, u).runners[r]]
        == s.runners[r := Sent(s, r, bytes, u).runners[r]];
    if Smooth(parts, es, u) && s.started {
      SmoothSnoc(parts, es, Headers(r, Partial), u);
      SmoothSnoc(parts, es + [Headers(r, Partial)], Chunk(r, bytes), u);
    }
  }

  lemma FetchStores(parts: seq<Part>, fs: seq<Event>, s: State, r: nat, bytes: seq<Byte>, u: Setup)
    requires CanFetch(s, r, bytes, u) && Run(parts, fs, u) == Sent(s, r, bytes, u) && CleanRun(parts, fs, u)
    ensures var gs := fs + [Written(r, false)] + [Finish(r)];
            && Run(parts, gs, u) == Fetched(s, r, bytes, u) && CleanRun(parts, gs, u)
            && (Smooth(parts, fs, u) && s.started ==> Smooth(parts, gs, u))
  {
    hide Run, CleanRun, Smooth, Store, End;
    Snoc(parts, fs, Written(r, false), u);
    StoredCall(Sent(s, r, bytes, u), r);
    Snoc(parts, fs + [Written(r, false)], Finish(r), u);
    if Smooth(parts, fs, u) && s.started {
      SmoothSnoc(parts, fs, Written(r, false), u);
      SmoothSnoc(parts, fs + [Written(r, false)], Finish(r), u);
    }
  }

  lemma StoredCall(s: State, r: nat)
    requires Has(s, r) && s.runners[r].stage.Writing?
    ensures var t := Store(s, r);
            && Has(t, r) && t.runners[r] == s.runners[r].(stage := Reading)
            && t.outcome == s.outcome && t.started == s.started
            && t.parts[s.runners[r].part].end == s.parts[s.runners[r].part].end
  {
    hide WriteAt, BlobOf;
  }

  // ---- bytes that stay in memory ----

  ghost function Call(part: nat, observed: bool, stage: Stage, position: nat): Runner {
    Runner(part, observed, Flag(false, 0, 6), 1, false, stage, position, 1, 0, 0)
  }

  const TWO: Setup := Setup([7, 9], [], true, 6)

  ghost function Halves(p: nat, ps: Status, q: nat, qs: Status): seq<Part> {
    [Part(0, 0, 0, p, ps, 0), Part(1, 1, 1, q, qs, 0)]
  }

  // The first part is clicked and fetched whole ...
  ghost function ClickedTwo(): State {
    Initial(Halves(0, Downloading, 0, Pending), TWO).(
      runners := [Call(0, false, Connecting, 0)], registered := map[0 := 0], controllers := map[0 := 0])
  }

  ghost function FirstTwo(): State {
    Initial(Halves(1, Completed, 0, Pending), TWO).(
      runners := [Call(0, false, Ended, 1)], blobs := map[0 := [7]], totalReceived := 1)
  }

  // ... and then the file is open, and the second part is written into it.
  ghost function OpenedTwo(): State {
    FirstTwo().(parts := Halves(1, Completed, 0, Downloading), started := true,
                runners := [Call(0, false, Ended, 1), Call(1, true, Connecting, 1)],
                registered := map[1 := 1], controllers := map[1 := 1])
  }

  ghost function SecondTwo(): State {
    FirstTwo().(parts := Halves(1, Completed, 1, Completed), started := true, disk := [0, 9], totalReceived := 2,
                runners := [Call(0, false, Ended, 1), Call(1, true, Ended, 2)])
  }

  lemma ClickTwo()
    ensures var s := Initial(Halves(0, Pending, 0, Pending), TWO);
            Enabled(s, Click(0), TWO) && Step(s, Click(0), TWO) == ClickedTwo()
  {
  }

  lemma FetchFirst()
    ensures CanFetch(ClickedTwo(), 0, [7], TWO) && Fetched(ClickedTwo(), 0, [7], TWO) == FirstTwo()
  {
    var t := Store(Sent(ClickedTwo(), 0, [7], TWO), 0);
    assert [] + [7] == [7];
    assert t == FirstTwo().(parts := Halves(1, Downloading, 0, Pending), runners := [Call(0, false, Reading, 1)],
                            registered := map[0 := 0], controllers := map[0 := 0]);
    assert map[0 := 0] - {0} == map[];
  }

  lemma OpenTwo()
    ensures Enabled(FirstTwo(), Open, TWO) && Step(FirstTwo(), Open, TWO) == OpenedTwo()
  {
    var s := FirstTwo().(started := true);
    assert StartFrom(s, 0, false, TWO) == StartFrom(s, 1, false, TWO);
    assert Start(s, 1, 0, true, 6) == OpenedTwo();
    hide Start;
    assert StartFrom(s, 1, false, TWO) == StartFrom(OpenedTwo(), 2, false, TWO);
  }

  lemma FetchSecond()
    ensures CanFetch(OpenedTwo(), 1, [9], TWO) && Fetched(OpenedTwo(), 1, [9], TWO) == SecondTwo()
  {
    WriteAtPoint([], 1, [9]);
    assert WriteAt([], 1, [9]) == [0, 9];
  }

  lemma EarlyTwo() returns (es: seq<Event>)
    ensures var parts := Halves(0, Pending, 0, Pending);
            CleanRun(parts, es, TWO) && Smooth(parts, es, TWO) && Run(parts, es, TWO) == OpenedTwo()
  {
    var parts := Halves(0, Pending, 0, Pending);
    Nothing(parts, TWO);
    hide Run, CleanRun, Smooth, Step, Enabled, CanFetch, Fetched, Halves;
    ClickTwo();
    Snoc(parts, [], Click(0), TWO);
    FetchFirst();
    FetchRun(parts, [] + [Click(0)], 0, [7], TWO);
    es := [] + [Click(0)] + Fetch(0, [7]);
    OpenTwo();
    Snoc(parts, es, Open, TWO);
    NotStartedSmooth(parts, es, TWO);
    SmoothSnoc(parts, es, Open, TWO);
    es := es + [Open];
  }

  lemma Nothing(parts: seq<Part>, u: Setup)
    ensures CleanRun(parts, [], u) && Run(parts, [], u) == Initial(parts, u)
  {
  }

  /** A part that is fetched before the file is open is missing from it, although nothing ever ran twice. */
  lemma FetchedTooEarly() returns (es: seq<Event>)
    ensures var parts := Halves(0, Pending, 0, Pending);
            && Fresh(parts, TWO) && CleanRun(parts, es, TWO) && Smooth(parts, es, TWO)
            && Run(parts, es, TWO).outcome == Finalized([0, 9])
  {
    var parts := Halves(0, Pending, 0, Pending);
    assert Fresh(parts, TWO);
    hide Run, CleanRun, Smooth, Step, Enabled, CanFetch, Fetched, SecondTwo, Halves, Fresh;
    es := EarlyTwo();
    FetchSecond();
    FetchRun(parts, es, 1, [9], TWO);
    es := es + Fetch(1, [9]);
    PollTwo();
    Snoc(parts, es, Poll, TWO);
    StartedSecond();
    SmoothSnoc(parts, es, Poll, TWO);
    es := es + [Poll];
  }

  lemma StartedSecond()
    ensures SecondTwo().started
  {
  }

  lemma PollTwo()
    ensures Enabled(SecondTwo(), Poll, TWO) && Step(SecondTwo(), Poll, TWO).outcome == Finalized([0, 9])
    ensures CleanEnd(SecondTwo(), Poll)
  {
  }

  // ---- two calls for one part ----

  const THREE: Setup := Setup([1, 2, 3], [], true, 6)

  ghost function Thirds(p: nat, ps: Status, q: nat, qs: Status): seq<Part> {
    [Part(0, 0, 1, p, ps, 0), Part(1, 2, 2, q, qs, 0)]
  }

  ghost function Calls3(a: Runner, b: Runner, c: Runner, registered: map<nat, nat>): State {
    Initial(Thirds(0, Downloading, 0, Downloading), THREE).(
      started := true, runners := [a, b, c], registered := registered, controllers := registered)
  }

  ghost function ClickedThree(): State {
    Initial(Thirds(0, Downloading, 0, Pending), THREE).(
      runners := [Call(0, false, Connecting, 0)], registered := map[0 := 0], controllers := map[0 := 0])
  }

  // The first part has two calls once the file is open.
  ghost function OpenedThree(): State {
    Calls3(Call(0, false, Connecting, 0), Call(0, true, Connecting, 0), Call(1, true, Connecting, 2),
           map[0 := 1, 1 := 2])
  }

  // The second part is fetched,
  ghost function LastThree(): State {
    Calls3(Call(0, false, Connecting, 0), Call(0, true, Connecting, 0), Call(1, true, Ended, 3), map[0 := 1]).(
      parts := Thirds(0, Downloading, 1, Completed), disk := [0, 0, 3], totalReceived := 1)
  }

  // the first call fetches its part,
  ghost function OnceThree(): State {
    Calls3(Call(0, false, Ended, 2), Call(0, true, Connecting, 0), Call(1, true, Ended, 3), map[]).(
      parts := Thirds(2, Completed, 1, Completed), disk := [1, 2, 3], totalReceived := 3)
  }

  // and the other call, which asked for the same bytes, puts them behind those.
  ghost function TwiceThree(): State {
    Calls3(Call(0, false, Ended, 2), Call(0, true, Ended, 2), Call(1, true, Ended, 3), map[]).(
      parts := Thirds(4, Completed, 1, Completed), disk := [1, 2, 1, 2], totalReceived := 5)
  }

  lemma ClickThree()
    ensures var s := Initial(Thirds(0, Pending, 0, Pending), THREE);
            Enabled(s, Click(0), THREE) && Step(s, Click(0), THREE) == ClickedThree()
  {
  }

  lemma OpenThree()
    ensures Enabled(ClickedThree(), Open, THREE) && Step(ClickedThree(), Open, THREE) == OpenedThree()
  {
    var s := ClickedThree().(started := true);
    var t := s.(runners := s.runners + [Call(0, true, Connecting, 0)], registered := map[0 := 1],
                controllers := map[0 := 1]);
    assert Start(s, 0, 0, true, 6) == t;
    assert Start(t, 1, 0, true, 6) == OpenedThree();
    hide Start;
    assert StartFrom(s, 0, false, THREE) == StartFrom(t, 1, false, THREE);
    assert StartFrom(t, 1, false, THREE) == StartFrom(OpenedThree(), 2, false, THREE);
  }

  lemma FetchLast()
    ensures CanFetch(OpenedThree(), 2, [3], THREE) && Fetched(OpenedThree(), 2, [3], THREE) == LastThree()
  {
    WriteAtPoint([], 2, [3]);
    assert WriteAt([], 2, [3]) == [0, 0, 3];
    assert map[0 := 1, 1 := 2] - {1} == map[0 := 1];
  }

  lemma FetchOnce()
    ensures CanFetch(LastThree(), 0, [1, 2], THREE) && Fetched(LastThree(), 0, [1, 2], THREE) == OnceThree()
  {
    WriteAtPoint([0, 0, 3], 0, [1, 2]);
    assert WriteAt([0, 0, 3], 0, [1, 2]) == [1, 2, 3];
    assert map[0 := 1] - {0} == map[];
  }

  lemma FetchTwice()
    ensures CanFetch(OnceThree(), 1, [1, 2], THREE) && Fetched(OnceThree(), 1, [1, 2], THREE) == TwiceThree()
  {
    WriteAtPoint([1, 2, 3], 2, [1, 2]);
    assert WriteAt([1, 2, 3], 2, [1, 2]) == [1, 2, 1, 2];
  }

  lemma PollThree()
    ensures Enabled(TwiceThree(), Poll, THREE) && Step(TwiceThree(), Poll, THREE).outcome == Finalized([1, 2, 1, 2])
    ensures CleanEnd(TwiceThree(), Poll)
  {
  }

  lemma ClickAndOpen()
    ensures var parts := Thirds(0, Pending, 0, Pending);
            CleanRun(parts, [Click(0), Open], THREE) && Run(parts, [Click(0), Open], THREE) == OpenedThree()
  {
    hide Run, CleanRun, Step, Enabled, Initial, Thirds, ClickedThree, OpenedThree;
    var parts := Thirds(0, Pending, 0, Pending);
    Nothing(parts, THREE);
    ClickThree();
    Snoc(parts, [], Click(0), THREE);
    assert [] + [Click(0)] == [Click(0)];
    OpenThree();
    Snoc(parts, [Click(0)], Open, THREE);
    assert [Click(0)] + [Open] == [Click(0), Open];
  }

  lemma BothCalls() returns (es: seq<Event>)
    ensures [Click(0), Open] <= es
    ensures var parts := Thirds(0, Pending, 0, Pending);
            CleanRun(parts, es, THREE) && Run(parts, es, THREE) == LastThree()
  {
    hide Run, CleanRun, Smooth, CanFetch, Fetched, Thirds, OpenedThree, LastThree, Fetch;
    ClickAndOpen();
    FetchLast();
    FetchRun(Thirds(0, Pending, 0, Pending), [Click(0), Open], 2, [3], THREE);
    es := [Click(0), Open] + Fetch(2, [3]);
  }

  /** Two calls that fetch one part each put the whole part into the file, one behind the other and over the next
      part: every body arrives whole, and the finished file is neither right nor of the right length. */
  lemma FetchedTwice() returns (es: seq<Event>)
    ensures var parts := Thirds(0, Pending, 0, Pending);
            && [Click(0), Open] <= es && Fresh(parts, THREE) && CleanRun(parts, es, THREE)
            && Run(parts, es, THREE).outcome == Finalized([1, 2, 1, 2])
  {
    var parts := Thirds(0, Pending, 0, Pending);
    assert Fresh(parts, THREE);
    hide Run, CleanRun, Smooth, Step, Enabled, CanFetch, Fetched, Thirds, Fresh, LastThree, OnceThree, TwiceThree, Fetch;
    es := BothCalls();
    FetchOnce();
    FetchRun(parts, es, 0, [1, 2], THREE);
    es := es + Fetch(0, [1, 2]);
    FetchTwice();
    FetchRun(parts, es, 1, [1, 2], THREE);
    es := es + Fetch(1, [1, 2]);
    PollThree();
    Snoc(parts, es, Poll, THREE);
    es := es + [Poll];
  }

  // The second call fetches the part, and the first one never gets an answer.
  ghost function LuckyThree(): State {
    Calls3(Call(0, false, Connecting, 0), Call(0, true, Ended, 2), Call(1, true, Ended, 3), map[]).(
      parts := Thirds(2, Completed, 1, Completed), disk := [1, 2, 3], totalReceived := 3)
  }

  lemma FetchLucky()
    ensures CanFetch(LastThree(), 1, [1, 2], THREE) && Fetched(LastThree(), 1, [1, 2], THREE) == LuckyThree()
    ensures Enabled(LuckyThree(), Poll, THREE) && Step(LuckyThree(), Poll, THREE).outcome == Finalized([1, 2, 3])
    ensures CleanEnd(LuckyThree(), Poll)
  {
    WriteAtPoint([0, 0, 3], 0, [1, 2]);
    assert WriteAt([0, 0, 3], 0, [1, 2]) == [1, 2, 3];
    assert map[0 := 1] - {0} == map[];
  }

  /** After the same click and the same opening the file may also end up right: when two calls are alive, the moment
      the target is opened does not decide what is saved. */
  lemma FetchedOnceAfterAll() returns (es: seq<Event>)
    ensures var parts := Thirds(0, Pending, 0, Pending);
            && [Click(0), Open] <= es && Fresh(parts, THREE) && CleanRun(parts, es, THREE)
            && Run(parts, es, THREE).outcome == Finalized([1, 2, 3])
  {
    var parts := Thirds(0, Pending, 0, Pending);
    assert Fresh(parts, THREE);
    hide Run, CleanRun, Smooth, Step, Enabled, CanFetch, Fetched, Thirds, Fresh, LastThree, LuckyThree, Fetch;
    es := BothCalls();
    FetchLucky();
    FetchRun(parts, es, 1, [1, 2], THREE);
    es := es + Fetch(1, [1, 2]);
    Snoc(parts, es, Poll, THREE);
    es := es + [Poll];
  }
}
