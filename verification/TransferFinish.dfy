/** A parallel download that is neither over nor refused can still be finished, and then saves the source
    (next-frontend/app/lib/workerConnection.ts, downloadWorkerLocalFile). */
module TransferFinish {
  import opened Basics
  import opened ByteRanges
  import opened Transfer
  import opened TransferSafety
  import opened TransferResults
  import opened TransferProgress

  // The target has been opened, nothing is over, and no reply has stopped the transfer.
  ghost predicate Going(s: State, u: Setup) {
    Sound(s, u) && Budget(s, u.max) && s.started && s.outcome == Running && !s.special
  }

  // The live call of the part
  ghost predicate CallOf(s: State, i: nat, r: nat) {
    && i < |s.parts| && i in s.registered && s.registered[i] == r && Has(s, r)
    && s.runners[r].part == i && s.runners[r].Live()
  }

  // How far the part is from being completed
  ghost function Rank(s: State, i: nat): nat
    requires i < |s.parts|
  {
    if i !in s.registered || s.registered[i] >= |s.runners| then 9
    else
      var x, full := s.runners[s.registered[i]], s.parts[i].received >= s.parts[i].Size();
      match x.stage
      case Waiting => if full then 2 else 8
      case Connecting => 7
      case Writing(chunk, _) => if s.parts[i].received + |chunk| >= s.parts[i].Size() then 4 else 6
      case Reading => if full then 3 else 5
      case Ended => 0
  }

  // A step that brings part i on and leaves the others as they are
  ghost predicate Brings(s: State, e: Event, i: nat, u: Setup)
    requires Enabled(s, e, u) && i < |s.parts|
  {
    var t := Step(s, e, u);
    && |t.parts| == |s.parts| && (forall j :: 0 <= j < |s.parts| && j != i ==> t.parts[j] == s.parts[j])
    && !t.special && t.started && t.outcome == Running && !e.Open? && CleanEnd(s, e)
    && if t.parts[i].status == Completed then t.parts[i].Full() else Rank(t, i) < Rank(s, i)
  }

  lemma TheCall(s: State, i: nat, u: Setup)
    requires Going(s, u) && i in s.registered
    ensures CallOf(s, i, s.registered[i])
  {
    ClickedCall(s, i, u);
    assert Calls(s, i, s.registered[i]);
  }

  // What the invariants say about the part and its call
  lemma CallFacts(s: State, i: nat, r: nat, u: Setup)
    requires Going(s, u) && CallOf(s, i, r)
    ensures var x, p := s.runners[r], s.parts[i];
            && p.start <= p.end < |u.source| && p.received <= p.Size() && p.status == Downloading
            && (x.stage.Waiting? ==> x.attempt < PART_MAX_ATTEMPTS)
            && (x.stage.Connecting? || x.stage.Reading? ==> x.position == p.start + p.received)
            && (x.stage.Writing? ==> p.received + |x.stage.chunk| <= p.Size())
  {
    assert Within(s.runners[r], u.max);
    TilesWithin(s.parts, |u.source|, i);
    PlacedAt(s, r, u);
  }

  lemma StillCall(s: State, i: nat, r: nat, t: State, u: Setup)
    requires CallOf(s, i, r) && OnlyItself(s, r, t) && Sound(t, u) && t.runners[r].Live()
    ensures CallOf(t, i, r)
  {
  }

  lemma PartFacts(s: State, i: nat, u: Setup)
    requires Going(s, u) && i < |s.parts|
    ensures var p := s.parts[i]; p.start <= p.end < |u.source| && p.received <= p.Size()
  {
    TilesWithin(s.parts, |u.source|, i);
  }

  lemma ClickBrings(s: State, i: nat, u: Setup)
    requires Going(s, u) && i < |s.parts| && i !in s.registered && s.parts[i].status != Completed
    ensures Enabled(s, Click(i), u) && Brings(s, Click(i), i, u)
  {
    PartFacts(s, i, u);
    ClickActs(s, i, u);
    SameRegistered(s, u);
    StartsThere(s, i, u.max);
    hide Sound, Budget, Start;
  }

  lemma StartsThere(s: State, i: nat, max: nat)
    requires i < |s.parts|
    ensures var t := Start(s, i, s.parts[i].lastAuto, false, max);
            && (forall j :: 0 <= j < |s.parts| && j != i ==> t.parts[j] == s.parts[j])
            && t.special == s.special && t.parts[i].received == s.parts[i].received
            && t.parts[i].start == s.parts[i].start && t.parts[i].end == s.parts[i].end
  {
  }

  lemma WakeBrings(s: State, i: nat, r: nat, u: Setup)
    requires Going(s, u) && CallOf(s, i, r) && s.runners[r].stage.Waiting?
    ensures Enabled(s, Wake(r), u) && Brings(s, Wake(r), i, u)
  {
    hide Sound, Budget, Step;
    CallFacts(s, i, r, u);
    WakeConnects(s, r, u);
    StepOnly(s, Wake(r), u);
    StepSound(s, Wake(r), u);
    BeginKeeps(s, r, u);
    if Step(s, Wake(r), u).runners[r].Live() {
      StillCall(s, i, r, Step(s, Wake(r), u), u);
    }
  }

  lemma BeginKeeps(s: State, r: nat, u: Setup)
    requires Enabled(s, Wake(r), u)
    ensures var i, t := s.runners[r].part, Step(s, Wake(r), u);
            t.special == s.special && |t.parts| == |s.parts| && SamePlace(s.parts[i], t.parts[i])
  {
    hide End, SamePlace;
    SamePlaceSelf(s.parts[s.runners[r].part]);
    EndKeeps(s, r, s.runners[r], Failed);
    EndKeeps(s, r, s.runners[r], Completed);
  }

  lemma EndKeeps(s: State, r: nat, x: Runner, status: Status)
    requires Has(s, r) && x.part == s.runners[r].part
    ensures var t := End(s, r, x, status, false);
            t.special == s.special && |t.parts| == |s.parts| && SamePlace(s.parts[x.part], t.parts[x.part])
  {
  }

  lemma SamePlaceSelf(p: Part)
    ensures SamePlace(p, p)
  {
  }

  lemma HeadersBring(s: State, i: nat, r: nat, u: Setup)
    requires Going(s, u) && CallOf(s, i, r) && s.runners[r].stage.Connecting?
    ensures Enabled(s, Headers(r, Partial), u) && Brings(s, Headers(r, Partial), i, u)
  {
    hide Sound, Budget, Step;
    CallFacts(s, i, r, u);
    ReplyDecides(s, r, Partial, u);
    StepOnly(s, Headers(r, Partial), u);
    StepSound(s, Headers(r, Partial), u);
    StillCall(s, i, r, Step(s, Headers(r, Partial), u), u);
  }

  lemma ChunkIs(s: State, r: nat, bytes: seq<Byte>, u: Setup)
    requires Enabled(s, Chunk(r, bytes), u)
    ensures var t := Step(s, Chunk(r, bytes), u);
            && t.parts == s.parts && t.special == s.special && |t.runners| == |s.runners|
            && t.runners[r].stage.Writing? && t.runners[r].stage.chunk == bytes
  {
  }

  lemma ChunkBrings(s: State, i: nat, r: nat, u: Setup) returns (e: Event)
    requires Going(s, u) && CallOf(s, i, r) && s.runners[r].stage.Reading? && s.parts[i].received < s.parts[i].Size()
    ensures Enabled(s, e, u) && Brings(s, e, i, u)
  {
    hide Sound, Budget, Step;
    CallFacts(s, i, r, u);
    var bytes := u.source[s.runners[r].position..s.parts[i].end + 1];
    e := Chunk(r, bytes);
    ChunkIs(s, r, bytes, u);
    StepOnly(s, e, u);
    StepSound(s, e, u);
    StillCall(s, i, r, Step(s, e, u), u);
  }

  lemma WrittenBrings(s: State, i: nat, r: nat, u: Setup)
    requires Going(s, u) && CallOf(s, i, r) && s.runners[r].stage.Writing?
    ensures Enabled(s, Written(r, false), u) && Brings(s, Written(r, false), i, u)
  {
    hide Sound, Budget, Step;
    CallFacts(s, i, r, u);
    WrittenCounts(s, r, false, u);
    StepOnly(s, Written(r, false), u);
    StepSound(s, Written(r, false), u);
    StoreKeeps(s, r, u);
    StillCall(s, i, r, Step(s, Written(r, false), u), u);
  }

  lemma StoreKeeps(s: State, r: nat, u: Setup)
    requires Enabled(s, Written(r, false), u)
    ensures var i, t := s.runners[r].part, Step(s, Written(r, false), u);
            && t.special == s.special && |t.parts| == |s.parts|
            && t.parts[i] == s.parts[i].(received := t.parts[i].received)
  {
    hide WriteAt, BlobOf;
  }

  lemma FinishBrings(s: State, i: nat, r: nat, u: Setup)
    requires Going(s, u) && CallOf(s, i, r) && s.runners[r].stage.Reading? && s.parts[i].received >= s.parts[i].Size()
    ensures Enabled(s, Finish(r), u) && Brings(s, Finish(r), i, u)
  {
    hide Sound, Budget, Step;
    CallFacts(s, i, r, u);
    StepOnly(s, Finish(r), u);
    StepSound(s, Finish(r), u);
    FinishKeeps(s, r, u);
    if s.runners[r].flag.requested {
      ReconnectIsFree(s, Finish(r), u);
      StillCall(s, i, r, Step(s, Finish(r), u), u);
    } else {
      FinishCompletes(s, r, u);
    }
  }

  lemma FinishKeeps(s: State, r: nat, u: Setup)
    requires Enabled(s, Finish(r), u)
    ensures var i, t := s.runners[r].part, Step(s, Finish(r), u);
            t.special == s.special && |t.parts| == |s.parts| && SamePlace(s.parts[i], t.parts[i])
  {
    hide End, SamePlace;
    SamePlaceSelf(s.parts[s.runners[r].part]);
    EndKeeps(s, r, s.runners[r], Completed);
  }

  lemma NextBrings(s: State, i: nat, u: Setup) returns (e: Event)
    requires Going(s, u) && i < |s.parts| && s.parts[i].status != Completed
    ensures Enabled(s, e, u) && Brings(s, e, i, u) && Going(Step(s, e, u), u)
  {
    hide Going, Step, Brings, Enabled;
    if i !in s.registered {
      e := Click(i);
      ClickBrings(s, i, u);
    } else {
      var r := s.registered[i];
      TheCall(s, i, u);
      match s.runners[r].stage
      case Waiting =>
        e := Wake(r);
        WakeBrings(s, i, r, u);
      case Connecting =>
        e := Headers(r, Partial);
        HeadersBring(s, i, r, u);
      case Writing(_, _) =>
        e := Written(r, false);
        WrittenBrings(s, i, r, u);
      case Reading =>
        if s.parts[i].received < s.parts[i].Size() {
          e := ChunkBrings(s, i, r, u);
        } else {
          e := Finish(r);
          FinishBrings(s, i, r, u);
        }
    }
    StillGoing(s, e, i, u);
  }

  lemma StillGoing(s: State, e: Event, i: nat, u: Setup)
    requires Going(s, u) && Enabled(s, e, u) && i < |s.parts| && Brings(s, e, i, u)
    ensures Going(Step(s, e, u), u)
  {
    hide Step, Enabled, Sound, Budget;
    StepSound(s, e, u);
    StepBudget(s, e, u);
  }

  // ---- runs of such steps ----

  ghost predicate CleanFrom(s: State, es: seq<Event>, u: Setup) {
    es == [] ||
    (CleanFrom(s, es[..|es| - 1], u) && CleanEnd(RunFrom(s, es[..|es| - 1], u), es[|es| - 1]) && !es[|es| - 1].Open?)
  }

  lemma {:induction false} RunFromCons(s: State, e: Event, es: seq<Event>, u: Setup)
    requires Enabled(s, e, u) && CleanEnd(s, e) && !e.Open?
    ensures RunFrom(s, [e] + es, u) == RunFrom(Step(s, e, u), es, u)
    ensures CleanFrom(Step(s, e, u), es, u) ==> CleanFrom(s, [e] + es, u)
  {
    hide Step, Enabled, CleanEnd;
    if es == [] {
      assert [e] + es == [e] && [e][..0] == [];
    } else {
      var n := |es| - 1;
      RunFromCons(s, e, es[..n], u);
      assert ([e] + es)[..n + 1] == [e] + es[..n];
    }
  }

  lemma {:induction false} RunFromJoin(s: State, a: seq<Event>, b: seq<Event>, u: Setup)
    ensures RunFrom(s, a + b, u) == RunFrom(RunFrom(s, a, u), b, u)
    ensures CleanFrom(s, a, u) && CleanFrom(RunFrom(s, a, u), b, u) ==> CleanFrom(s, a + b, u)
  {
    hide Step, Enabled, CleanEnd;
    if b == [] {
      assert a + b == a;
    } else {
      var n := |b| - 1;
      RunFromJoin(s, a, b[..n], u);
      assert (a + b)[..|a + b| - 1] == a + b[..n];
    }
  }

  // The part has all its bytes, and the others are as they were.
  ghost predicate PartDone(s: State, i: nat, t: State, u: Setup) {
    && Going(t, u) && |t.parts| == |s.parts| && i < |s.parts| && t.parts[i].status == Completed && t.parts[i].Full()
    && forall j :: 0 <= j < |s.parts| && j != i ==> t.parts[j] == s.parts[j]
  }

  lemma {:induction false} PartCanFinish(s: State, i: nat, u: Setup) returns (es: seq<Event>)
    requires Going(s, u) && i < |s.parts| && s.parts[i].status != Completed
    ensures PartDone(s, i, RunFrom(s, es, u), u) && CleanFrom(s, es, u)
    decreases Rank(s, i)
  {
    hide Going, Step, Enabled, Rank, RunFrom, CleanFrom, CleanEnd;
    var e := NextBrings(s, i, u);
    var t := Step(s, e, u);
    var rest := [];
    NothingRun(t, u);
    if t.parts[i].status != Completed {
      rest := PartCanFinish(t, i, u);
    }
    RunFromCons(s, e, rest, u);
    es := [e] + rest;
  }

  lemma NothingRun(s: State, u: Setup)
    ensures RunFrom(s, [], u) == s && CleanFrom(s, [], u)
  {
  }

  // ---- a call that fails for a while ----

  datatype Mishap = NoAnswer | LoginPage | Broken

  // One mishap of an attempt, and the next attempt
  ghost function Attempt(r: nat, m: Mishap): seq<Event> {
    match m
    case NoAnswer => [Headers(r, Unreachable)] + [Wake(r)]
    case LoginPage => [Headers(r, Html)] + [Wake(r)]
    case Broken => [Headers(r, Partial)] + ([Break(r)] + [Wake(r)])
  }

  // The call is connecting, nobody has asked it to reconnect, and it has come so far with both budgets.
  ghost predicate Trying(s: State, i: nat, r: nat, attempt: nat, auto: nat, limit: nat, u: Setup) {
    && Going(s, u) && CallOf(s, i, r) && s.parts[i].received < s.parts[i].Size()
    && s.runners[r].stage.Connecting? && !s.runners[r].flag.requested
    && s.runners[r].attempt == attempt && s.runners[r].flag.autoRestarts == auto && s.runners[r].flag.limit == limit
  }

  lemma WakeTries(s: State, i: nat, r: nat, u: Setup)
    requires Going(s, u) && CallOf(s, i, r) && s.runners[r].stage.Waiting? && s.parts[i].received < s.parts[i].Size()
    ensures Enabled(s, Wake(r), u)
    ensures var x, t := s.runners[r], Step(s, Wake(r), u);
            Trying(t, i, r, x.attempt + 1, x.flag.autoRestarts, x.flag.limit, u) && t.parts == s.parts
  {
    WakeBrings(s, i, r, u);
    hide Sound, Budget, Step;
    CallFacts(s, i, r, u);
    WakeConnects(s, r, u);
    StepOnly(s, Wake(r), u);
    StepSound(s, Wake(r), u);
    StepBudget(s, Wake(r), u);
    StillCall(s, i, r, Step(s, Wake(r), u), u);
  }

  lemma FailureWaits(s: State, e: Event, i: nat, r: nat, u: Setup)
    requires Going(s, u) && CallOf(s, i, r) && Enabled(s, e, u) && Failure(s, e) && e.r == r && !e.WriteFailed?
    requires !Spent(s.runners[r])
    ensures var t := Step(s, e, u); Going(t, u) && CallOf(t, i, r) && Retries(s, r, t) && !e.Open? && CleanEnd(s, e)
  {
    hide Sound, Budget, Step;
    FailureSpends(s, e, u);
    StepOnly(s, e, u);
    StepSound(s, e, u);
    StepBudget(s, e, u);
    StillCall(s, i, r, Step(s, e, u), u);
    FailureKeeps(s, e, u);
  }

  lemma FailureKeeps(s: State, e: Event, u: Setup)
    requires Enabled(s, e, u) && Failure(s, e) && !e.WriteFailed?
    ensures Step(s, e, u).special == s.special
  {
    hide End, SamePlace;
    var x := s.runners[e.r];
    EndKeeps(s, e.r, x.(flag := x.flag.(autoRestarts := x.flag.autoRestarts + 1), stage := Waiting), Failed);
  }

  lemma PartialReads(s: State, i: nat, r: nat, u: Setup)
    requires Going(s, u) && CallOf(s, i, r) && s.runners[r].stage.Connecting?
    ensures Enabled(s, Headers(r, Partial), u)
    ensures var t := Step(s, Headers(r, Partial), u);
            Going(t, u) && CallOf(t, i, r) && t.parts == s.parts && t.runners[r] == s.runners[r].(stage := Reading)
  {
    hide Sound, Budget, Step;
    HeadersBring(s, i, r, u);
    StillGoing(s, Headers(r, Partial), i, u);
    ReplyDecides(s, r, Partial, u);
    StepOnly(s, Headers(r, Partial), u);
    StillCall(s, i, r, Step(s, Headers(r, Partial), u), u);
  }

  lemma AnswerFails(s: State, i: nat, r: nat, reply: Reply, attempt: nat, auto: nat, limit: nat, u: Setup)
    requires Trying(s, i, r, attempt, auto, limit, u) && attempt < PART_MAX_ATTEMPTS && auto + 1 < limit
    requires reply.Unreachable? || reply.Html?
    ensures var t := RunFrom(s, [Headers(r, reply)] + [Wake(r)], u);
            Trying(t, i, r, attempt + 1, auto + 1, limit, u) && t.parts == s.parts
  {
    hide Going, Step, RunFrom, CleanFrom;
    assert Enabled(s, Headers(r, reply), u) by { GoingRuns(s, u); }
    FailureWaits(s, Headers(r, reply), i, r, u);
    var t := Step(s, Headers(r, reply), u);
    WakeTries(t, i, r, u);
    hide Enabled;
    NothingRun(Step(t, Wake(r), u), u);
    RunFromCons(t, Wake(r), [], u);
    RunFromCons(s, Headers(r, reply), [Wake(r)] + [], u);
    assert [Wake(r)] + [] == [Wake(r)];
  }

  lemma GoingRuns(s: State, u: Setup)
    requires Going(s, u)
    ensures s.outcome == Running
  {
  }

  lemma BodyBreaks(s: State, i: nat, r: nat, attempt: nat, auto: nat, limit: nat, u: Setup)
    requires Trying(s, i, r, attempt, auto, limit, u) && attempt < PART_MAX_ATTEMPTS && auto + 1 < limit
    ensures var t := RunFrom(s, [Headers(r, Partial)] + ([Break(r)] + [Wake(r)]), u);
            Trying(t, i, r, attempt + 1, auto + 1, limit, u) && t.parts == s.parts
  {
    hide Going, Step, RunFrom, CleanFrom;
    PartialReads(s, i, r, u);
    var t := Step(s, Headers(r, Partial), u);
    assert Enabled(t, Break(r), u) by { GoingRuns(t, u); }
    FailureWaits(t, Break(r), i, r, u);
    var v := Step(t, Break(r), u);
    WakeTries(v, i, r, u);
    hide Enabled;
    NothingRun(Step(v, Wake(r), u), u);
    RunFromCons(v, Wake(r), [], u);
    RunFromCons(t, Break(r), [Wake(r)] + [], u);
    assert [Wake(r)] + [] == [Wake(r)];
    RunFromCons(s, Headers(r, Partial), [Break(r)] + [Wake(r)], u);
  }

  ghost function Attempts(r: nat, ms: seq<Mishap>): seq<Event> {
    if ms == [] then [] else Attempts(r, ms[..|ms| - 1]) + Attempt(r, ms[|ms| - 1])
  }

  lemma {:induction false} MishapsSurvived(s: State, i: nat, r: nat, ms: seq<Mishap>, auto: nat, limit: nat, u: Setup)
    requires Trying(s, i, r, 1, auto, limit, u) && |ms| < PART_MAX_ATTEMPTS && auto + |ms| < limit
    ensures var t := RunFrom(s, Attempts(r, ms), u);
            Trying(t, i, r, 1 + |ms|, auto + |ms|, limit, u) && t.parts == s.parts
  {
    hide Trying, RunFrom, Step, Enabled;
    if ms == [] {
      NothingRun(s, u);
    } else {
      var n := |ms| - 1;
      MishapsSurvived(s, i, r, ms[..n], auto, limit, u);
      var t := RunFrom(s, Attempts(r, ms[..n]), u);
      RunFromJoin(s, Attempts(r, ms[..n]), Attempt(r, ms[n]), u);
      match ms[n]
      case NoAnswer => AnswerFails(t, i, r, Unreachable, 1 + n, auto + n, limit, u);
      case LoginPage => AnswerFails(t, i, r, Html, 1 + n, auto + n, limit, u);
      case Broken => BodyBreaks(t, i, r, 1 + n, auto + n, limit, u);
    }
  }

  /** A call that meets fewer mishaps than it has attempts and restarts is still at its first byte missing after them,
      and a whole body then completes its part. */
  lemma MishapsThenBody(s: State, i: nat, r: nat, ms: seq<Mishap>, auto: nat, limit: nat, u: Setup)
    returns (body: seq<Event>)
    requires Trying(s, i, r, 1, auto, limit, u) && |ms| < PART_MAX_ATTEMPTS && auto + |ms| < limit
    ensures var t := RunFrom(s, Attempts(r, ms), u);
            t.parts == s.parts && AsksFrom(t, r, s.parts[i].start + s.parts[i].received)
    ensures PartDone(s, i, RunFrom(s, Attempts(r, ms) + body, u), u)
  {
    hide Going, RunFrom, Step, Enabled;
    MishapsSurvived(s, i, r, ms, auto, limit, u);
    var t := RunFrom(s, Attempts(r, ms), u);
    CallFacts(t, i, r, u);
    body := PartCanFinish(t, i, u);
    RunFromJoin(s, Attempts(r, ms), body, u);
  }

  // ---- the whole transfer ----

  lemma {:induction false} PartsCanFinish(s: State, n: nat, u: Setup) returns (es: seq<Event>)
    requires Going(s, u) && n <= |s.parts| && DoneIsFull(s)
    ensures var t := RunFrom(s, es, u);
            && Going(t, u) && |t.parts| == |s.parts| && DoneIsFull(t) && CleanFrom(s, es, u)
            && forall i :: 0 <= i < n ==> t.parts[i].status == Completed
    decreases n
  {
    hide Going, Step, Enabled, RunFrom, CleanFrom;
    es := [];
    NothingRun(s, u);
    if n > 0 {
      es := PartsCanFinish(s, n - 1, u);
      var t := RunFrom(s, es, u);
      if t.parts[n - 1].status != Completed {
        var more := PartCanFinish(t, n - 1, u);
        RunFromJoin(s, es, more, u);
        es := es + more;
      }
    }
  }

  /** From every state of the transfer in which the target is open and that is neither over nor refused, some
      continuation finishes it with every byte of every part. */
  lemma CanFinish(s: State, u: Setup) returns (es: seq<Event>)
    requires Going(s, u) && DoneIsFull(s)
    ensures RunFrom(s, es, u).outcome.Finalized? && AllFull(RunFrom(s, es, u).parts) && CleanFrom(s, es, u)
  {
    hide Going, Step, Enabled, Sound, RunFrom, CleanFrom;
    es := PartsCanFinish(s, |s.parts|, u);
    var t := RunFrom(s, es, u);
    LastPoll(t, u);
    NothingRun(Step(t, Poll, u), u);
    RunFromCons(t, Poll, [], u);
    RunFromJoin(s, es, [Poll] + [], u);
    es := es + ([Poll] + []);
  }

  lemma LastPoll(s: State, u: Setup)
    requires Going(s, u) && DoneIsFull(s) && AllCompleted(s)
    ensures Enabled(s, Poll, u) && Step(s, Poll, u).outcome.Finalized? && AllFull(Step(s, Poll, u).parts)
  {
    hide Sound, Budget;
    PollDecides(s, u);
    assert Step(s, Poll, u).parts == s.parts;
  }

  lemma {:induction false} RunThen(parts: seq<Part>, es: seq<Event>, more: seq<Event>, u: Setup)
    ensures Run(parts, es + more, u) == RunFrom(Run(parts, es, u), more, u)
    ensures CleanRun(parts, es, u) && CleanFrom(Run(parts, es, u), more, u) ==> CleanRun(parts, es + more, u)
  {
    hide Step, Enabled, CleanEnd;
    if more == [] {
      assert es + more == es;
    } else {
      var n := |more| - 1;
      RunThen(parts, es, more[..n], u);
      assert (es + more)[..|es + more| - 1] == es + more[..n];
    }
  }

  lemma {:induction false} OpenedBefore(parts: seq<Part>, es: seq<Event>, u: Setup)
    requires Run(parts, es, u).started
    ensures Open in es
  {
    hide Step, Enabled;
    var n := |es| - 1;
    if es != [] && Enabled(Run(parts, es[..n], u), es[n], u) {
      StepStarts(Run(parts, es[..n], u), es[n], u);
    }
    if es != [] && es[n] != Open {
      OpenedBefore(parts, es[..n], u);
    }
  }

  /** However a download has gone so far: as long as it is neither over nor refused, it can still be brought to its end,
      and then it has saved the source. */
  lemma TransferCanFinish(parts: seq<Part>, es: seq<Event>, u: Setup) returns (more: seq<Event>)
    requires Fresh(parts, u) && CleanRun(parts, es, u) && (!u.picked || NoEarlyClick(es))
    requires var s := Run(parts, es, u); s.started && s.outcome == Running && !s.special
    ensures Run(parts, es + more, u).outcome == Finalized(if u.picked then Expected(u) else u.source)
  {
    hide Run, RunFrom, CleanRun, CleanFrom, Fresh, Smooth, Sound, Budget, DoneIsFull, NoEarlyClick, Expected;
    QuietSmooth(parts, es, u);
    RunSound(parts, es, u);
    RunBudget(parts, es, u);
    CleanRunDoneIsFull(parts, es, u);
    more := CanFinish(Run(parts, es, u), u);
    RunThen(parts, es, more, u);
    OpenedBefore(parts, es, u);
    StillNoEarlyClick(es, more);
    FinishedIsSource(parts, es + more, u);
  }

  lemma StillNoEarlyClick(es: seq<Event>, more: seq<Event>)
    requires Open in es
    ensures NoEarlyClick(es) ==> NoEarlyClick(es + more)
  {
    if NoEarlyClick(es) {
      forall i | 0 <= i < |es + more| && (es + more)[i].Click?
        ensures Open in (es + more)[..i]
      {
        if i < |es| {
          assert (es + more)[..i] == es[..i];
        } else {
          assert (es + more)[..i] == es + more[..i - |es|];
        }
      }
    }
  }
}
