/** The parallel download of one stored file: every step of every part, in any order
    (next-frontend/app/lib/workerConnection.ts, downloadWorkerLocalFile). What is here holds of every run,
    with however many calls a part has: how often a call connects and how many calls there can be. */
module Transfer {
  import opened Basics
  import opened ByteRanges

  const PART_MAX_ATTEMPTS := 8

  // requested: a reconnect is wanted; autoRestarts may grow up to limit
  datatype Flag = Flag(requested: bool, autoRestarts: nat, limit: nat)

  // A chunk on its way goes to a position in the picked file, or to memory.
  datatype Stage = Connecting | Reading | Writing(chunk: seq<Byte>, target: Option<nat>) | Waiting | Ended

  // One call of downloadPart. position is the file offset of the next body byte; the last three
  // fields count the connections it made, the clicks it received and the unexplained aborts.
  datatype Runner = Runner(part: nat, observed: bool, flag: Flag, attempt: nat, aborted: bool, stage: Stage,
                           position: nat, connections: nat, clicks: nat, silent: nat)
  {
    predicate Live() {
      !stage.Ended?
    }
  }

  datatype Outcome = Running | Stopped | Finalized(content: seq<Byte>)

  // What does not change: the stored file, what the picked target held before, whether a target was
  // picked at all, and MAX_SLOW_RESTARTS
  datatype Setup = Setup(source: seq<Byte>, existing: seq<Byte>, picked: bool, max: nat)

  // registered is restartFlags and controllers is partControllers: the call whose flag, and the call whose
  // abort controller, the entry of each part holds
  datatype State = State(parts: seq<Part>, runners: seq<Runner>, registered: map<nat, nat>,
                         controllers: map<nat, nat>, started: bool,
                         disk: seq<Byte>, blobs: map<nat, seq<Byte>>, totalReceived: nat,
                         special: bool, phase2: bool, outcome: Outcome)

  datatype Reply = Partial | Aborted | Unreachable | Html | Whole | BadStatus | WrongRange

  datatype Event =
    | Open
    | Headers(r: nat, reply: Reply)
    | Chunk(r: nat, bytes: seq<Byte>)
    | Written(r: nat, slow: bool)
    | WriteFailed(r: nat, landed: nat)
    | Finish(r: nat)
    | Break(r: nat)
    | AbortRead(r: nat)
    | Wake(r: nat)
    | Click(part: nat)
    | Poll

  // ---- what one call of downloadPart does between two awaits ----

  ghost predicate Has(s: State, r: nat) {
    r < |s.runners| && s.runners[r].part < |s.parts|
  }

  ghost predicate SameFrame(s: State, t: State) {
    t.outcome == s.outcome && t.started == s.started && t.phase2 == s.phase2 && |t.parts| == |s.parts|
  }

  ghost function SetRunner(s: State, r: nat, x: Runner): State
    requires Has(s, r)
  {
    s.(runners := s.runners[r := x])
  }

  // The call is over; x is the runner as it ends.
  ghost function End(s: State, r: nat, x: Runner, status: Status, special: bool): (t: State)
    requires Has(s, r) && x.part == s.runners[r].part
    ensures SameFrame(s, t) && |t.runners| == |s.runners|
  {
    var p := s.parts[x.part];
    s.(registered := s.registered - {x.part}, controllers := s.controllers - {x.part},
       parts := s.parts[x.part := p.(status := status,
                                     lastAuto := if status == Failed then x.flag.autoRestarts else p.lastAuto)],
       runners := s.runners[r := x.(stage := Ended)],
       special := s.special || (special && x.observed))
  }

  // The head of the attempt loop
  ghost function BeginAttempt(s: State, r: nat, attempt: nat): (t: State)
    requires Has(s, r)
    ensures SameFrame(s, t) && |t.runners| == |s.runners|
  {
    var x := s.runners[r];
    var p := s.parts[x.part];
    if attempt > PART_MAX_ATTEMPTS then End(s, r, x, Failed, false)
    else if p.start + p.received > p.end then End(s, r, x, Completed, false)
    else
      SetRunner(s.(controllers := s.controllers[x.part := r]), r,
                x.(flag := x.flag.(requested := false), attempt := attempt, aborted := false, stage := Connecting,
                   position := p.start + p.received, connections := x.connections + 1))
  }

  // A new call with its flag and its controller, before its first attempt
  ghost function Launch(s: State, i: nat, auto: nat, observed: bool, max: nat): State
    requires i < |s.parts|
  {
    var x := Runner(i, observed, Flag(false, auto, auto + max), 0, false, Waiting, 0, 0, 0, 0);
    s.(parts := s.parts[i := s.parts[i].(status := Downloading)],
       runners := s.runners + [x], registered := s.registered[i := |s.runners|],
       controllers := s.controllers[i := |s.runners|])
  }

  ghost function Start(s: State, i: nat, auto: nat, observed: bool, max: nat): (t: State)
    requires i < |s.parts|
    ensures SameFrame(s, t) && |t.runners| == |s.runners| + 1
  {
    BeginAttempt(Launch(s, i, auto, observed, max), |s.runners|, 1)
  }

  // A reconnect that does not use up the attempts
  ghost function Voluntary(s: State, r: nat): (t: State)
    requires Has(s, r)
    ensures SameFrame(s, t) && |t.runners| == |s.runners|
  {
    var x := s.runners[r];
    SetRunner(s, r, x.(flag := x.flag.(requested := false), attempt := 0, stage := Waiting))
  }

  // A failure that counts against both budgets
  ghost function Consume(s: State, r: nat): (t: State)
    requires Has(s, r)
    ensures SameFrame(s, t) && |t.runners| == |s.runners|
  {
    var x := s.runners[r];
    var y := x.(flag := x.flag.(autoRestarts := x.flag.autoRestarts + 1), stage := Waiting);
    if y.flag.autoRestarts >= y.flag.limit || x.attempt == PART_MAX_ATTEMPTS then
      End(s, r, y, Failed, false)
    else
      SetRunner(s, r, y)
  }

  ghost function StreamError(s: State, r: nat): (t: State)
    requires Has(s, r)
    ensures SameFrame(s, t) && |t.runners| == |s.runners|
  {
    if s.runners[r].flag.requested then Voluntary(s, r) else Consume(s, r)
  }

  ghost function OnHeaders(s: State, r: nat, reply: Reply): (t: State)
    requires Has(s, r)
    ensures SameFrame(s, t) && |t.runners| == |s.runners|
  {
    var x := s.runners[r];
    match reply
    case Partial => SetRunner(s, r, x.(stage := Reading))
    case Aborted =>
      Voluntary(SetRunner(s, r, x.(silent := if x.aborted then x.silent else x.silent + 1)), r)
    case Unreachable => Consume(s, r)
    case Html => Consume(s, r)
    case Whole => End(s, r, x, Failed, true)
    case WrongRange => End(s, r, x, Failed, true)
    case BadStatus =>
      if x.attempt == PART_MAX_ATTEMPTS then End(s, r, x, Failed, false) else SetRunner(s, r, x.(stage := Waiting))
  }

  function Zeros(n: nat): (r: seq<Byte>)
    ensures |r| == n && forall k :: 0 <= k < n ==> r[k] == 0
  {
    if n == 0 then [] else Zeros(n - 1) + [0]
  }

  // A positional write; a gap before it reads as zeros.
  function WriteAt(file: seq<Byte>, at: nat, data: seq<Byte>): seq<Byte> {
    var base := if |file| < at then file + Zeros(at - |file|) else file;
    base[..at] + data + if at + |data| < |base| then base[at + |data|..] else []
  }

  ghost predicate Writable(s: State, u: Setup) {
    s.started && u.picked
  }

  function BlobOf(blobs: map<nat, seq<Byte>>, i: nat): seq<Byte> {
    if i in blobs then blobs[i] else []
  }

  // Where writeChunk puts a chunk: the place is chosen before the write is awaited.
  ghost function Target(s: State, i: nat, u: Setup): Option<nat>
    requires i < |s.parts|
  {
    if Writable(s, u) then Some(s.parts[i].start + s.parts[i].received) else None
  }

  // The chunk is stored, and the two counters follow.
  ghost function Store(s: State, r: nat): State
    requires Has(s, r) && s.runners[r].stage.Writing?
  {
    var i := s.runners[r].part;
    var p, chunk, target := s.parts[i], s.runners[r].stage.chunk, s.runners[r].stage.target;
    var t := if target.Some? then s.(disk := WriteAt(s.disk, target.value, chunk))
             else s.(blobs := s.blobs[i := BlobOf(s.blobs, i) + chunk]);
    t.(parts := s.parts[i := p.(received := p.received + |chunk|)], totalReceived := s.totalReceived + |chunk|,
       runners := s.runners[r := s.runners[r].(stage := Reading)])
  }

  // The throughput check after a chunk
  ghost function CheckSpeed(s: State, r: nat, slow: bool): (t: State)
    requires Has(s, r)
    ensures SameFrame(s, t) && |t.runners| == |s.runners|
  {
    var x := s.runners[r];
    if !slow then s
    else if x.flag.autoRestarts >= x.flag.limit then StreamError(s, r)
    else
      var flag := x.flag.(autoRestarts := x.flag.autoRestarts + 1, requested := true);
      Voluntary(SetRunner(s, r, x.(flag := flag, aborted := true)), r)
  }

  // A write into the file that fails; some of it may have landed.
  ghost function LoseWrite(s: State, r: nat, landed: nat): State
    requires Has(s, r) && s.runners[r].stage.Writing? && s.runners[r].stage.target.Some?
    requires landed <= |s.runners[r].stage.chunk|
  {
    s.(disk := WriteAt(s.disk, s.runners[r].stage.target.value, s.runners[r].stage.chunk[..landed]))
  }

  ghost function OnFinish(s: State, r: nat): (t: State)
    requires Has(s, r)
    ensures SameFrame(s, t) && |t.runners| == |s.runners|
  {
    if s.runners[r].flag.requested then Voluntary(s, r) else End(s, r, s.runners[r], Completed, false)
  }

  // ---- the user and the orchestration loop ----

  // The flag of one call is set and its budget extended; the connection of one call is aborted. The two are
  // the same call as long as every part has one.
  ghost function Refreshed(x: Runner, max: nat): Runner {
    x.(flag := Flag(true, x.flag.autoRestarts, x.flag.autoRestarts + max), clicks := x.clicks + 1)
  }

  ghost function Refresh(s: State, q: nat, r: nat, max: nat): (t: State)
    requires Has(s, q) && Has(s, r)
    ensures SameFrame(s, t) && |t.runners| == |s.runners|
  {
    var t := SetRunner(s, q, Refreshed(s.runners[q], max));
    SetRunner(t, r, t.runners[r].(aborted := true, clicks := t.runners[r].clicks + if q == r then 0 else 1))
  }

  ghost function OnClick(s: State, i: nat, u: Setup): State {
    if i in s.registered && i in s.controllers && Has(s, s.registered[i]) && Has(s, s.controllers[i]) then
      Refresh(s, s.registered[i], s.controllers[i], u.max)
    else if i < |s.parts| && s.parts[i].status != Completed then
      Start(s, i, s.parts[i].lastAuto, false, u.max)
    else
      s
  }

  // Open starts the parts that are not completed, phase 2 those that failed, in order from i on.
  ghost function StartFrom(s: State, i: nat, failedOnly: bool, u: Setup): (t: State)
    requires i <= |s.parts|
    decreases |s.parts| - i
    ensures SameFrame(s, t) && |t.runners| <= |s.runners| + |s.parts| - i
  {
    if i == |s.parts| then s
    else
      var chosen := if failedOnly then s.parts[i].status == Failed else s.parts[i].status != Completed;
      var auto := if failedOnly then s.parts[i].lastAuto else 0;
      StartFrom(if chosen then Start(s, i, auto, true, u.max) else s, i + 1, failedOnly, u)
  }

  ghost predicate AllCompleted(s: State) {
    forall i :: 0 <= i < |s.parts| ==> s.parts[i].status == Completed
  }

  ghost predicate SomeActive(s: State) {
    exists i :: 0 <= i < |s.parts| && (s.parts[i].status == Downloading || s.parts[i].status == Pending)
  }

  // The buffers of the first n parts, in part order
  ghost function Assemble(blobs: map<nat, seq<Byte>>, n: nat): seq<Byte> {
    if n == 0 then [] else Assemble(blobs, n - 1) + BlobOf(blobs, n - 1)
  }

  ghost function OnPoll(s: State, u: Setup): State {
    if s.special then s.(outcome := Stopped)
    else if AllCompleted(s) then
      s.(outcome := Finalized(if Writable(s, u) then s.disk else Assemble(s.blobs, |s.parts|)))
    else if !SomeActive(s) && !s.phase2 then StartFrom(s.(phase2 := true), 0, true, u)
    else s
  }

  // ---- runs ----

  // What can happen next. Body bytes come from the range that was asked for, and no chunk is empty; a read is
  // only aborted after somebody aborted it. The parts can be restarted as soon as they are cut: while a picked
  // file is being opened the user may click already, without one nothing comes before Open.
  ghost predicate Enabled(s: State, e: Event, u: Setup) {
    s.outcome == Running &&
    match e
    case Open => !s.started
    case Click(_) => s.started || u.picked
    case Poll => s.started
    case Headers(r, _) => Has(s, r) && s.runners[r].stage.Connecting?
    case Chunk(r, bytes) =>
      && Has(s, r) && s.runners[r].stage.Reading? && bytes != []
      && s.runners[r].position + |bytes| <= s.parts[s.runners[r].part].end + 1 <= |u.source|
      && bytes == u.source[s.runners[r].position..s.runners[r].position + |bytes|]
    case Written(r, _) => Has(s, r) && s.runners[r].stage.Writing?
    case WriteFailed(r, landed) =>
      && Has(s, r) && s.runners[r].stage.Writing? && s.runners[r].stage.target.Some?
      && landed <= |s.runners[r].stage.chunk|
    case Finish(r) => Has(s, r) && s.runners[r].stage.Reading?
    case Break(r) => Has(s, r) && s.runners[r].stage.Reading?
    case AbortRead(r) => Has(s, r) && s.runners[r].stage.Reading? && s.runners[r].aborted
    case Wake(r) => Has(s, r) && s.runners[r].stage.Waiting?
  }

  ghost function Step(s: State, e: Event, u: Setup): State
    requires Enabled(s, e, u)
  {
    match e
    case Open => StartFrom(s.(started := true), 0, false, u)
    case Click(i) => OnClick(s, i, u)
    case Poll => OnPoll(s, u)
    case Headers(r, reply) => OnHeaders(s, r, reply)
    case Chunk(r, bytes) =>
      var x := s.runners[r];
      SetRunner(s, r, x.(stage := Writing(bytes, Target(s, x.part, u)), position := x.position + |bytes|))
    case Written(r, slow) => CheckSpeed(Store(s, r), r, slow)
    case WriteFailed(r, landed) => StreamError(LoseWrite(s, r, landed), r)
    case Finish(r) => OnFinish(s, r)
    case Break(r) => StreamError(s, r)
    case AbortRead(r) => Voluntary(s, r)
    case Wake(r) => BeginAttempt(s, r, s.runners[r].attempt + 1)
  }

  ghost function Initial(parts: seq<Part>, u: Setup): State {
    State(parts, [], map[], map[], false, u.existing, map[], 0, false, false, Running)
  }

  // The parts as they are cut
  ghost predicate Fresh(parts: seq<Part>, u: Setup) {
    && Tiles(parts, |u.source|)
    && forall i :: 0 <= i < |parts| ==> parts[i].received == 0 && parts[i].status == Pending && parts[i].lastAuto == 0
  }

  // Events that cannot happen where they stand are skipped, so every sequence of events is a run.
  ghost function Run(parts: seq<Part>, es: seq<Event>, u: Setup): State {
    if es == [] then Initial(parts, u)
    else
      var n := |es| - 1;
      var s := Run(parts, es[..n], u);
      if Enabled(s, es[n], u) then Step(s, es[n], u) else s
  }

  lemma RunSnoc(parts: seq<Part>, es: seq<Event>, e: Event, u: Setup)
    requires Enabled(Run(parts, es, u), e, u)
    ensures Run(parts, es + [e], u) == Step(Run(parts, es, u), e, u)
  {
    hide Step, Enabled;
    assert (es + [e])[..|es|] == es;
  }

  // ---- the entries of the two maps ----

  ghost predicate Calls(s: State, i: nat, r: nat) {
    i < |s.parts| && r < |s.runners| && s.runners[r].part == i && s.runners[r].Live()
  }

  // An entry belongs to a live call for its part.
  ghost predicate Linked(s: State) {
    && (forall r :: 0 <= r < |s.runners| ==> s.runners[r].part < |s.parts|)
    && (forall i :: i in s.registered ==> Calls(s, i, s.registered[i]))
    && (forall i :: i in s.controllers ==> Calls(s, i, s.controllers[i]))
  }

  lemma LinkedSet(s: State, r: nat, x: Runner)
    requires Linked(s) && Has(s, r) && x.part == s.runners[r].part && x.Live()
    ensures Linked(SetRunner(s, r, x))
  {
  }

  lemma LinkedEnd(s: State, r: nat, x: Runner, status: Status, special: bool)
    requires Linked(s) && Has(s, r) && x.part == s.runners[r].part
    ensures Linked(End(s, r, x, status, special))
  {
  }

  lemma LinkedHead(s: State, r: nat)
    requires Linked(s) && Has(s, r) && s.runners[r].Live()
    ensures Linked(s.(controllers := s.controllers[s.runners[r].part := r]))
  {
  }

  lemma LinkedBegin(s: State, r: nat, attempt: nat)
    requires Linked(s) && Has(s, r) && s.runners[r].Live()
    ensures Linked(BeginAttempt(s, r, attempt))
  {
    hide End;
    var x := s.runners[r];
    var t := s.(controllers := s.controllers[x.part := r]);
    LinkedHead(s, r);
    hide Linked;
    LinkedEnd(s, r, x, Failed, false);
    LinkedEnd(s, r, x, Completed, false);
    var p := s.parts[x.part];
    LinkedSet(t, r, x.(flag := x.flag.(requested := false), attempt := attempt, aborted := false, stage := Connecting,
                       position := p.start + p.received, connections := x.connections + 1));
  }

  lemma LinkedStart(s: State, i: nat, auto: nat, observed: bool, max: nat)
    requires Linked(s) && i < |s.parts|
    ensures Linked(Start(s, i, auto, observed, max))
  {
    hide BeginAttempt;
    assert Linked(Launch(s, i, auto, observed, max));
    LinkedBegin(Launch(s, i, auto, observed, max), |s.runners|, 1);
  }

  lemma {:induction false} LinkedStartFrom(s: State, i: nat, failedOnly: bool, u: Setup)
    requires Linked(s) && i <= |s.parts|
    ensures Linked(StartFrom(s, i, failedOnly, u))
    decreases |s.parts| - i
  {
    hide Start, Linked;
    if i < |s.parts| {
      var chosen := if failedOnly then s.parts[i].status == Failed else s.parts[i].status != Completed;
      var auto := if failedOnly then s.parts[i].lastAuto else 0;
      LinkedStart(s, i, auto, true, u.max);
      LinkedStartFrom(if chosen then Start(s, i, auto, true, u.max) else s, i + 1, failedOnly, u);
    }
  }

  lemma LinkedVoluntary(s: State, r: nat)
    requires Linked(s) && Has(s, r)
    ensures Linked(Voluntary(s, r))
  {
    var x := s.runners[r];
    LinkedSet(s, r, x.(flag := x.flag.(requested := false), attempt := 0, stage := Waiting));
  }

  lemma LinkedConsume(s: State, r: nat)
    requires Linked(s) && Has(s, r)
    ensures Linked(Consume(s, r))
  {
    hide Linked, End;
    var x := s.runners[r];
    var y := x.(flag := x.flag.(autoRestarts := x.flag.autoRestarts + 1), stage := Waiting);
    LinkedSet(s, r, y);
    LinkedEnd(s, r, y, Failed, false);
  }

  lemma LinkedStreamError(s: State, r: nat)
    requires Linked(s) && Has(s, r)
    ensures Linked(StreamError(s, r))
  {
    hide Linked, Voluntary, Consume;
    LinkedVoluntary(s, r);
    LinkedConsume(s, r);
  }

  lemma LinkedHeaders(s: State, r: nat, reply: Reply)
    requires Linked(s) && Has(s, r) && s.runners[r].Live()
    ensures Linked(OnHeaders(s, r, reply))
  {
    hide Linked, Voluntary, End, Consume;
    var x := s.runners[r];
    match reply
    case Partial => LinkedSet(s, r, x.(stage := Reading));
    case Aborted =>
      var y := x.(silent := if x.aborted then x.silent else x.silent + 1);
      LinkedSet(s, r, y);
      LinkedVoluntary(SetRunner(s, r, y), r);
    case Unreachable => LinkedConsume(s, r);
    case Html => LinkedConsume(s, r);
    case Whole => LinkedEnd(s, r, x, Failed, true);
    case WrongRange => LinkedEnd(s, r, x, Failed, true);
    case BadStatus =>
      if x.attempt == PART_MAX_ATTEMPTS {
        LinkedEnd(s, r, x, Failed, false);
      } else {
        LinkedSet(s, r, x.(stage := Waiting));
      }
  }

  lemma LinkedCheckSpeed(s: State, r: nat, slow: bool)
    requires Linked(s) && Has(s, r) && s.runners[r].Live()
    ensures Linked(CheckSpeed(s, r, slow))
  {
    var x := s.runners[r];
    hide Linked, Voluntary, StreamError;
    var y := x.(flag := x.flag.(autoRestarts := x.flag.autoRestarts + 1, requested := true), aborted := true);
    LinkedStreamError(s, r);
    LinkedSet(s, r, y);
    LinkedVoluntary(SetRunner(s, r, y), r);
  }

  lemma LinkedClick(s: State, i: nat, u: Setup)
    requires Linked(s)
    ensures Linked(OnClick(s, i, u))
  {
    hide Start;
    if i in s.registered && i in s.controllers {
      assert Calls(s, i, s.registered[i]) && Calls(s, i, s.controllers[i]);
      hide Linked;
      var q, r := s.registered[i], s.controllers[i];
      var t := SetRunner(s, q, Refreshed(s.runners[q], u.max));
      LinkedSet(s, q, Refreshed(s.runners[q], u.max));
      LinkedSet(t, r, t.runners[r].(aborted := true, clicks := t.runners[r].clicks + if q == r then 0 else 1));
    } else if i < |s.parts| {
      LinkedStart(s, i, s.parts[i].lastAuto, false, u.max);
    }
  }

  /** Whatever happens, an entry of either map belongs to a live call for its part. */
  lemma StepLinked(s: State, e: Event, u: Setup)
    requires Linked(s) && Enabled(s, e, u)
    ensures Linked(Step(s, e, u))
  {
    hide Linked, StartFrom, OnClick, OnHeaders, CheckSpeed, StreamError, Voluntary, BeginAttempt, End, Store, WriteAt;
    match e
    case Open =>
      LinkedSame(s, s.(started := true));
      LinkedStartFrom(s.(started := true), 0, false, u);
    case Click(i) => LinkedClick(s, i, u);
    case Poll =>
      LinkedSame(s, s.(phase2 := true, outcome := OnPoll(s, u).outcome));
      LinkedSame(s, s.(phase2 := true));
      LinkedSame(s, s.(outcome := OnPoll(s, u).outcome));
      LinkedStartFrom(s.(phase2 := true), 0, true, u);
    case Headers(r, reply) => LinkedHeaders(s, r, reply);
    case Chunk(r, bytes) =>
      var x := s.runners[r];
      LinkedSet(s, r, x.(stage := Writing(bytes, Target(s, x.part, u)), position := x.position + |bytes|));
    case Written(r, slow) =>
      LinkedStored(s, r);
      LinkedCheckSpeed(Store(s, r), r, slow);
    case WriteFailed(r, landed) =>
      LinkedSame(s, LoseWrite(s, r, landed));
      LinkedStreamError(LoseWrite(s, r, landed), r);
    case Finish(r) =>
      LinkedVoluntary(s, r);
      LinkedEnd(s, r, s.runners[r], Completed, false);
    case Break(r) => LinkedStreamError(s, r);
    case AbortRead(r) => LinkedVoluntary(s, r);
    case Wake(r) => LinkedBegin(s, r, s.runners[r].attempt + 1);
  }

  lemma LinkedSame(s: State, t: State)
    requires Linked(s) && |t.parts| == |s.parts|
    requires t.runners == s.runners && t.registered == s.registered && t.controllers == s.controllers
    ensures Linked(t)
  {
  }

  lemma LinkedStored(s: State, r: nat)
    requires Linked(s) && Has(s, r) && s.runners[r].stage.Writing?
    ensures Linked(Store(s, r)) && Has(Store(s, r), r) && Store(s, r).runners[r].Live()
  {
    hide Linked, WriteAt, BlobOf;
    var x := s.runners[r].(stage := Reading);
    LinkedSet(s, r, x);
    LinkedSame(SetRunner(s, r, x), Store(s, r));
  }

  // ---- how often a call connects ----

  // The most connections a call may make, given the clicks and unexplained aborts it has seen
  ghost function Bound(x: Runner, max: nat): int {
    PART_MAX_ATTEMPTS * (max + 1) * (x.clicks + 1) + PART_MAX_ATTEMPTS * x.silent
  }

  // What is left of both budgets, weighted so that no step of a call can raise it for free. A reconnect that
  // is asked for gives the attempts back, so it is paid for as soon as it is asked for.
  ghost function Rest(x: Runner): int {
    PART_MAX_ATTEMPTS * (x.flag.limit - x.flag.autoRestarts) + (PART_MAX_ATTEMPTS - x.attempt)
    + if x.flag.requested || (x.aborted && !x.stage.Waiting?) then PART_MAX_ATTEMPTS else 0
  }

  ghost predicate Within(x: Runner, max: nat) {
    if x.Live() then
      && x.flag.autoRestarts <= x.flag.limit && x.attempt <= PART_MAX_ATTEMPTS
      && (x.stage.Waiting? ==> x.attempt < PART_MAX_ATTEMPTS)
      && x.connections + Rest(x) <= Bound(x, max)
    else
      x.connections <= Bound(x, max)
  }

  ghost predicate Budget(s: State, max: nat) {
    forall r :: 0 <= r < |s.runners| ==> Within(s.runners[r], max)
  }

  lemma BudgetSet(s: State, r: nat, x: Runner, max: nat)
    requires Budget(s, max) && Has(s, r) && Within(x, max)
    ensures Budget(SetRunner(s, r, x), max)
  {
    hide Within;
  }

  lemma BudgetEnd(s: State, r: nat, x: Runner, status: Status, special: bool, max: nat)
    requires Budget(s, max) && Has(s, r) && x.part == s.runners[r].part && x.connections <= Bound(x, max)
    ensures Budget(End(s, r, x, status, special), max)
  {
    var t := End(s, r, x, status, special);
    assert Within(t.runners[r], max);
    hide Within;
  }

  lemma BudgetBegin(s: State, r: nat, max: nat)
    requires Budget(s, max) && Has(s, r) && s.runners[r].stage.Waiting?
    ensures Budget(BeginAttempt(s, r, s.runners[r].attempt + 1), max)
  {
    var x := s.runners[r];
    var p := s.parts[x.part];
    assert Within(x, max);
    if p.start + p.received > p.end {
      BudgetEnd(s, r, x, Completed, false, max);
    } else {
      BudgetSet(s.(controllers := s.controllers[x.part := r]), r,
                x.(flag := x.flag.(requested := false), attempt := x.attempt + 1, aborted := false,
                   stage := Connecting, position := p.start + p.received, connections := x.connections + 1), max);
    }
  }

  lemma BudgetStart(s: State, i: nat, auto: nat, observed: bool, max: nat)
    requires Budget(s, max) && i < |s.parts|
    ensures Budget(Start(s, i, auto, observed, max), max)
  {
    var t := Launch(s, i, auto, observed, max);
    assert Within(t.runners[|s.runners|], max);
    assert Budget(t, max) by { hide Within; }
    hide Budget, BeginAttempt;
    BudgetBegin(t, |s.runners|, max);
  }

  lemma {:induction false} BudgetStartFrom(s: State, i: nat, failedOnly: bool, u: Setup)
    requires Budget(s, u.max) && i <= |s.parts|
    ensures Budget(StartFrom(s, i, failedOnly, u), u.max)
    decreases |s.parts| - i
  {
    hide Start, Budget;
    if i < |s.parts| {
      var chosen := if failedOnly then s.parts[i].status == Failed else s.parts[i].status != Completed;
      var auto := if failedOnly then s.parts[i].lastAuto else 0;
      BudgetStart(s, i, auto, true, u.max);
      BudgetStartFrom(if chosen then Start(s, i, auto, true, u.max) else s, i + 1, failedOnly, u);
    }
  }

  lemma BudgetVoluntary(s: State, r: nat, max: nat)
    requires Budget(s, max) && Has(s, r) && s.runners[r].Live()
    requires s.runners[r].flag.requested || (s.runners[r].aborted && !s.runners[r].stage.Waiting?)
    ensures Budget(Voluntary(s, r), max)
  {
    var x := s.runners[r];
    assert Within(x, max);
    BudgetSet(s, r, x.(flag := x.flag.(requested := false), attempt := 0, stage := Waiting), max);
  }

  lemma BudgetConsume(s: State, r: nat, max: nat)
    requires Budget(s, max) && Has(s, r) && s.runners[r].Live()
    ensures Budget(Consume(s, r), max)
  {
    var x := s.runners[r];
    var y := x.(flag := x.flag.(autoRestarts := x.flag.autoRestarts + 1), stage := Waiting);
    assert Within(x, max);
    if y.flag.autoRestarts >= y.flag.limit || x.attempt == PART_MAX_ATTEMPTS {
      BudgetEnd(s, r, y, Failed, false, max);
    } else {
      BudgetSet(s, r, y, max);
    }
  }

  lemma BudgetStreamError(s: State, r: nat, max: nat)
    requires Budget(s, max) && Has(s, r) && s.runners[r].Live()
    ensures Budget(StreamError(s, r), max)
  {
    hide Budget, Voluntary, Consume;
    if s.runners[r].flag.requested {
      BudgetVoluntary(s, r, max);
    } else {
      BudgetConsume(s, r, max);
    }
  }

  // An abort nobody asked for is paid for by the count of such aborts.
  lemma BudgetHeaders(s: State, r: nat, reply: Reply, max: nat)
    requires Budget(s, max) && Has(s, r) && s.runners[r].stage.Connecting?
    ensures Budget(OnHeaders(s, r, reply), max)
  {
    hide Voluntary, Consume, End;
    var x := s.runners[r];
    assert Within(x, max);
    BudgetConsume(s, r, max);
    BudgetEnd(s, r, x, Failed, true, max);
    BudgetEnd(s, r, x, Failed, false, max);
    if reply.Partial? {
      BudgetSet(s, r, x.(stage := Reading), max);
    } else if reply.BadStatus? && x.attempt < PART_MAX_ATTEMPTS {
      BudgetSet(s, r, x.(stage := Waiting), max);
    } else if reply.Aborted? {
      BudgetAborted(s, r, max);
    }
  }

  lemma BudgetAborted(s: State, r: nat, max: nat)
    requires Budget(s, max) && Has(s, r) && s.runners[r].stage.Connecting?
    ensures Budget(OnHeaders(s, r, Aborted), max)
  {
    var x := s.runners[r];
    assert Within(x, max);
    var y := x.(silent := if x.aborted then x.silent else x.silent + 1);
    var z := y.(flag := y.flag.(requested := false), attempt := 0, stage := Waiting);
    assert s.runners[r := y][r := z] == s.runners[r := z];
    BudgetSet(s, r, z, max);
  }

  lemma BudgetCheckSpeed(s: State, r: nat, slow: bool, max: nat)
    requires Budget(s, max) && Has(s, r) && s.runners[r].stage.Reading?
    ensures Budget(CheckSpeed(s, r, slow), max)
  {
    hide Voluntary, StreamError;
    var x := s.runners[r];
    assert Within(x, max);
    if slow && x.flag.autoRestarts >= x.flag.limit {
      BudgetStreamError(s, r, max);
    } else if slow {
      var y := x.(flag := x.flag.(autoRestarts := x.flag.autoRestarts + 1, requested := true), aborted := true);
      BudgetSet(s, r, y, max);
      BudgetVoluntary(SetRunner(s, r, y), r, max);
    }
  }

  lemma BudgetStored(s: State, r: nat, max: nat)
    requires Budget(s, max) && Has(s, r) && s.runners[r].stage.Writing?
    ensures Budget(Store(s, r), max)
  {
    assert Within(s.runners[r], max);
    assert Within(s.runners[r].(stage := Reading), max);
    hide Within;
  }

  /** A click buys exactly one more full budget. */
  lemma ClickWithin(x: Runner, max: nat)
    requires Within(x, max)
    ensures var y := Refreshed(x, max);
            && Within(y, max) && Within(y.(aborted := true), max)
            && Bound(y, max) == Bound(x, max) + PART_MAX_ATTEMPTS * (max + 1)
  {
    var b := PART_MAX_ATTEMPTS * (max + 1);
    assert b * (x.clicks + 2) == b * (x.clicks + 1) + b;
  }

  // A call whose connection is aborted by a click that was meant for another
  lemma AbortWithin(x: Runner, max: nat)
    requires Within(x, max)
    ensures Within(x.(aborted := true, clicks := x.clicks + 1), max)
  {
    var b := PART_MAX_ATTEMPTS * (max + 1);
    assert b * (x.clicks + 2) == b * (x.clicks + 1) + b;
  }

  lemma BudgetRefresh(s: State, q: nat, r: nat, max: nat)
    requires Budget(s, max) && Has(s, q) && Has(s, r)
    ensures Budget(Refresh(s, q, r, max), max)
  {
    hide Within, Bound;
    var t := SetRunner(s, q, Refreshed(s.runners[q], max));
    ClickWithin(s.runners[q], max);
    BudgetSet(s, q, Refreshed(s.runners[q], max), max);
    if q != r {
      AbortWithin(s.runners[r], max);
      BudgetSet(t, r, s.runners[r].(aborted := true, clicks := s.runners[r].clicks + 1), max);
    } else {
      BudgetSet(t, r, t.runners[r].(aborted := true), max);
    }
  }

  lemma StepBudget(s: State, e: Event, u: Setup)
    requires Budget(s, u.max) && Enabled(s, e, u)
    ensures Budget(Step(s, e, u), u.max)
  {
    hide Budget, StartFrom, Start, Refresh, OnHeaders, CheckSpeed, StreamError, Voluntary, BeginAttempt, End, WriteAt;
    match e
    case Open =>
      BudgetSame(s, s.(started := true), u.max);
      BudgetStartFrom(s.(started := true), 0, false, u);
    case Click(i) =>
      if i in s.registered && i in s.controllers && Has(s, s.registered[i]) && Has(s, s.controllers[i]) {
        BudgetRefresh(s, s.registered[i], s.controllers[i], u.max);
      } else if i < |s.parts| {
        BudgetStart(s, i, s.parts[i].lastAuto, false, u.max);
      }
    case Poll =>
      var t := OnPoll(s, u);
      BudgetSame(s, s.(phase2 := true), u.max);
      BudgetStartFrom(s.(phase2 := true), 0, true, u);
      if t.runners == s.runners { BudgetSame(s, t, u.max); }
    case Headers(r, reply) => BudgetHeaders(s, r, reply, u.max);
    case Chunk(r, bytes) =>
      var x := s.runners[r];
      BudgetStage(s, r, Writing(bytes, Target(s, x.part, u)), x.position + |bytes|, u.max);
      BudgetSet(s, r, x.(stage := Writing(bytes, Target(s, x.part, u)), position := x.position + |bytes|), u.max);
    case Written(r, slow) =>
      BudgetStored(s, r, u.max);
      BudgetCheckSpeed(Store(s, r), r, slow, u.max);
    case WriteFailed(r, landed) =>
      BudgetSame(s, LoseWrite(s, r, landed), u.max);
      BudgetStreamError(LoseWrite(s, r, landed), r, u.max);
    case Finish(r) => BudgetFinish(s, r, u.max);
    case Break(r) => BudgetStreamError(s, r, u.max);
    case AbortRead(r) => BudgetVoluntary(s, r, u.max);
    case Wake(r) => BudgetBegin(s, r, u.max);
  }

  lemma BudgetSame(s: State, t: State, max: nat)
    requires Budget(s, max) && t.runners == s.runners
    ensures Budget(t, max)
  {
    hide Within;
  }

  lemma BudgetStage(s: State, r: nat, stage: Stage, at: nat, max: nat)
    requires Budget(s, max) && Has(s, r) && s.runners[r].stage.Reading? && stage.Writing?
    ensures Within(s.runners[r].(stage := stage, position := at), max)
  {
    assert Within(s.runners[r], max);
  }

  lemma BudgetFinish(s: State, r: nat, max: nat)
    requires Budget(s, max) && Has(s, r) && s.runners[r].stage.Reading?
    ensures Budget(OnFinish(s, r), max)
  {
    hide Voluntary, End;
    assert Within(s.runners[r], max);
    if s.runners[r].flag.requested {
      BudgetVoluntary(s, r, max);
    } else {
      BudgetEnd(s, r, s.runners[r], Completed, false, max);
    }
  }

  lemma {:induction false} RunBudget(parts: seq<Part>, es: seq<Event>, u: Setup)
    ensures Budget(Run(parts, es, u), u.max)
  {
    hide Within, Step, Enabled;
    if es != [] {
      var n := |es| - 1;
      RunBudget(parts, es[..n], u);
      if Enabled(Run(parts, es[..n], u), es[n], u) {
        StepBudget(Run(parts, es[..n], u), es[n], u);
      }
    }
  }

  /** In every run, one call connects at most 8 * (MAX_SLOW_RESTARTS + 1) times; each click adds as much again
      and an abort nobody asked for adds eight. The error after the attempt loop is never reached. */
  lemma AttemptsBounded(parts: seq<Part>, es: seq<Event>, u: Setup, r: nat)
    requires r < |Run(parts, es, u).runners|
    ensures var x := Run(parts, es, u).runners[r];
            && x.connections <= PART_MAX_ATTEMPTS * (u.max + 1) * (x.clicks + 1) + PART_MAX_ATTEMPTS * x.silent
            && (x.stage.Waiting? ==> x.attempt + 1 <= PART_MAX_ATTEMPTS)
  {
    hide Run;
    RunBudget(parts, es, u);
    assert Within(Run(parts, es, u).runners[r], u.max);
  }

  // ---- how many calls there can be ----

  ghost function Clicks(es: seq<Event>): nat {
    if es == [] then 0 else Clicks(es[..|es| - 1]) + if es[|es| - 1].Click? then 1 else 0
  }

  ghost predicate FewCalls(s: State, clicks: nat) {
    |s.runners| <= clicks + (if s.started then |s.parts| else 0) + (if s.phase2 then |s.parts| else 0)
  }

  lemma StepCalls(s: State, e: Event, u: Setup, clicks: nat)
    requires FewCalls(s, clicks) && Enabled(s, e, u)
    ensures FewCalls(Step(s, e, u), clicks + if e.Click? then 1 else 0)
    ensures |Step(s, e, u).parts| == |s.parts|
  {
    hide BeginAttempt, Start, Voluntary, StreamError, StartFrom, WriteAt, OnHeaders, CheckSpeed, OnFinish;
  }

  /** Every part is fetched at most twice on its own account, plus once for each click. */
  lemma {:induction false} CallsBounded(parts: seq<Part>, es: seq<Event>, u: Setup)
    ensures var s := Run(parts, es, u);
            FewCalls(s, Clicks(es)) && |s.parts| == |parts| && |s.runners| <= 2 * |parts| + Clicks(es)
  {
    hide Step, Enabled;
    if es != [] {
      var n := |es| - 1;
      CallsBounded(parts, es[..n], u);
      if Enabled(Run(parts, es[..n], u), es[n], u) {
        StepCalls(Run(parts, es[..n], u), es[n], u, Clicks(es[..n]));
      }
    }
  }
}
