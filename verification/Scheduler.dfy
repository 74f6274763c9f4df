/** Background encoder batches of one HLS session: starting, watching, stopping, prefetching, validating, and
    the one-off fallback encode (python-worker/streamlift_worker/streaming.py). Segment validation, process
    exits, the outcome of every wait and the choice of the next task are inputs; a kill, a file replacement and a
    clean-up are single steps. */
module Scheduler {
  import opened Basics

  const HLS_BATCH_SEGMENTS := 20
  const HLS_MAX_CONCURRENT := 2
  const HLS_PREFETCH_AHEAD := 20
  const MAX_VALIDATION_ATTEMPTS := 3

  // Every write gets a new stamp, so equal stamps mean the same content.
  datatype File = File(stamp: nat, empty: bool)

  // Running: ffmpeg is alive. Exited: the watcher still reads the list. Detached: the watcher has let go of the
  // session and still holds its slot. Released: the watcher is done.
  datatype Stage = Running | Exited | Detached | Released

  // ffmpeg writes segment `cursor` next and has listed those before it; the watcher has looked at the lines up to
  // `read`, has the segment `checking` under validation, or has failed itself and is broken.
  datatype Batch = Batch(first: nat, end: nat, cursor: nat, read: nat, checking: Option<nat>, stage: Stage,
                         stopped: bool, ok: bool, timedOut: bool, broken: bool)
  {
    predicate Live() {
      stage == Running || stage == Exited
    }

    predicate Failed() {
      timedOut || broken || (!ok && !stopped)
    }

    // Under validation here
    predicate Checks(i: nat) {
      Live() && checking == Some(i)
    }
  }

  function NewBatch(first: nat, end: nat): Batch {
    Batch(first, end, first, first, None, Running, false, true, false, false)
  }

  // What the holder of batch_lock waits for: the watcher of batch b, before starting another or just to stop it;
  // a slot for a batch or for a fallback; or a fallback encode
  datatype Lock =
    | Free
    | Stopping(b: nat, index: nat, limit: Option<nat>)
    | Halting(b: nat)
    | Starting(first: nat, end: nat)
    | Awaiting(index: nat)
    | Encoding(index: nat)

  // render: the session belongs to a render job, whose driver is one thread. looked: the requests that have found
  // the file of their given-up segment and are about to publish it.
  datatype State = State(count: nat, copy: bool, render: bool,
                         files: map<nat, File>, completed: set<nat>, fallback: set<nat>, attempts: map<nat, nat>,
                         looked: multiset<nat>, batches: seq<Batch>, current: Option<nat>, lock: Lock,
                         free: nat, others: nat, batchFailures: nat, playhead: nat, clock: nat)

  // EnsureRest and StopDone end the wait for a watcher, which may give up before the watcher has finished.
  datatype Event =
    | Ensure(index: nat, limit: Option<nat>, recent: bool)
    | EnsureRest(recent: bool)
    | StartSlot(got: bool)
    | Stop
    | StopDone
    | Prefetch(b: nat, wanted: bool, recent: bool)
    | Write(b: nat, empty: bool)
    | Close(b: nat)
    | Exit(b: nat, ok: bool)
    | Timeout(b: nat)
    | WatcherFails(b: nat)
    | Check(b: nat)
    | Reread(b: nat, index: nat)
    | Verdict(b: nat, valid: bool)
    | Detach(b: nat)
    | Release(b: nat)
    | Look(index: nat)
    | Accept(index: nat)
    | FallbackBegin(index: nat)
    | FallbackSlot(got: bool)
    | FallbackEnd(success: bool)
    | Request(index: nat)
    | OtherAcquire
    | OtherRelease

  // _segment_ok
  predicate Ok(s: State, i: nat) {
    i in s.completed && HasFile(s, i)
  }

  predicate HasFile(s: State, i: nat) {
    i in s.files && !s.files[i].empty
  }

  // ---- _ensure_batch ----

  // The first completed segment in [i, end), or end
  function FirstCompleted(completed: set<nat>, i: nat, end: nat): (c: nat)
    ensures i <= end ==> i <= c <= end && (c < end ==> c in completed)
    ensures forall k :: i <= k < c && k < end ==> k !in completed
    decreases end - i
  {
    if i >= end then end else if i in completed then i else FirstCompleted(completed, i + 1, end)
  }

  predicate SameSession(s: State, t: State) {
    t.count == s.count && t.copy == s.copy && t.render == s.render
  }

  function SetBatch(s: State, b: nat, x: Batch): State
    requires b < |s.batches|
  {
    s.(batches := s.batches[b := x])
  }

  // Only published files survive.
  function Clean(s: State): State {
    s.(files := map i | i in s.files && i in s.completed :: s.files[i])
  }

  // Where a batch from index would end if nothing after it were published
  function WideEnd(index: nat, limit: Option<nat>, count: nat): nat {
    Min(index + (if limit.None? then HLS_BATCH_SEGMENTS else Max(1, limit.value)), count)
  }

  // A claim whose file is gone is forgotten.
  function Forget(s: State, i: nat): State {
    if i in s.completed && !Ok(s, i) then s.(completed := s.completed - {i}) else s
  }

  predicate BacksOff(s: State, recent: bool) {
    s.batchFailures >= 3 && recent
  }

  // The range of the next batch: up to the first published segment, if that is still there
  function ChooseRange(s: State, index: nat, limit: Option<nat>): (t: State)
    ensures SameSession(s, t)
  {
    var wide := WideEnd(index, limit, s.count);
    var c := FirstCompleted(s.completed, index + 1, wide);
    var kept := if c < wide then Forget(s, c) else s;
    kept.(lock := Starting(index, if c < wide && !Ok(s, c) then wide else c))
  }

  // What is left to do once no batch is running: clean up, choose the range, ask for a slot
  function StartFresh(s: State, index: nat, limit: Option<nat>, recent: bool): (t: State)
    ensures SameSession(s, t)
  {
    var cleaned := Forget(Clean(s), index);
    if BacksOff(s, recent) then cleaned
    else
      ChooseRange(cleaned.(batchFailures := if s.batchFailures >= 3 then 0 else s.batchFailures), index, limit)
  }

  // The slot came in time, or it did not.
  function StartBatch(s: State, got: bool): (t: State)
    requires s.lock.Starting?
    ensures SameSession(s, t)
  {
    if got && s.free > 0 then
      s.(free := s.free - 1, current := Some(|s.batches|), lock := Free,
         batches := s.batches + [NewBatch(s.lock.first, s.lock.end)])
    else
      s.(lock := Free)
  }

  predicate Covers(x: Batch, index: nat) {
    x.first <= index < x.end + HLS_BATCH_SEGMENTS
  }

  function Killed(x: Batch): Batch {
    if x.stage == Running then x.(stopped := true, stage := Exited, ok := false) else x.(stopped := true)
  }

  // The watcher fails: it kills its process and reads no further.
  function Broken(x: Batch): Batch {
    if x.stage == Running then x.(broken := true, checking := None, stage := Exited, ok := false)
    else x.(broken := true, checking := None)
  }

  // _stop_batch on its own, when the viewer has switched to another quality
  function StopBatch(s: State): (t: State)
    ensures SameSession(s, t)
  {
    if s.current.Some? && s.current.value < |s.batches| then
      SetBatch(s, s.current.value, Killed(s.batches[s.current.value])).(lock := Halting(s.current.value))
    else s
  }

  function EnsureBatch(s: State, index: nat, limit: Option<nat>, recent: bool): (t: State)
    ensures SameSession(s, t)
  {
    if Ok(s, index) || index in s.fallback then s
    else if s.current.Some? && s.current.value < |s.batches| then
      var b := s.current.value;
      var x := s.batches[b];
      if x.stage == Running && Covers(x, index) then s
      else
        // the rest follows when the watcher has finished, or the wait for it is over
        SetBatch(s, b, Killed(x)).(lock := Stopping(b, index, limit))
    else
      StartFresh(s, index, limit, recent)
  }

  // The wait for the watcher is over, whether it has finished or not.
  function Abandon(s: State): State {
    s.(current := None, lock := Free)
  }

  // ---- prefetch ----

  function FirstMissing(s: State, i: nat, end: nat): nat
    decreases end - i
  {
    if i < end && Ok(s, i) then FirstMissing(s, i + 1, end) else i
  }

  // wanted: the session is alive, still the level being watched, and was used lately
  function PrefetchNext(s: State, b: nat, wanted: bool, recent: bool): (t: State)
    requires b < |s.batches|
    ensures SameSession(s, t)
  {
    var x := s.batches[b];
    var start := FirstMissing(s, x.first, x.end);
    if !wanted || s.current.Some? || x.stopped || s.batchFailures > 0 then s
    else if start == x.first || start >= s.count || start > s.playhead + HLS_PREFETCH_AHEAD then s
    else EnsureBatch(s, start, None, recent)
  }

  // ---- the watcher ----

  function Publish(s: State, i: nat): State {
    s.(attempts := s.attempts - {i}, completed := s.completed + {i})
  }

  function AttemptsOf(s: State, i: nat): nat {
    if i in s.attempts then s.attempts[i] else 0
  }

  predicate Skips(s: State, i: nat) {
    !HasFile(s, i) || i in s.completed || i in s.fallback
  }

  // A line that is not skipped goes under validation.
  function TakeUp(s: State, b: nat, x: Batch, i: nat): (t: State)
    requires b < |s.batches|
    ensures SameSession(s, t) && |t.batches| == |s.batches|
  {
    SetBatch(s, b, if Skips(s, i) then x else x.(checking := Some(i)))
  }

  // A segment that fails validation is removed, unless it is the last version of a transcoded one.
  predicate Removable(s: State, i: nat) {
    s.copy || AttemptsOf(s, i) + 1 < MAX_VALIDATION_ATTEMPTS
  }

  // What validation leads to
  function Judge(s: State, i: nat, valid: bool): (t: State)
    ensures SameSession(s, t)
  {
    if valid then Publish(s, i)
    else
      var counted := s.(attempts := s.attempts[i := AttemptsOf(s, i) + 1]);
      if s.copy then counted.(files := s.files - {i}, fallback := s.fallback + {i})
      else if Removable(s, i) then counted.(files := s.files - {i})
      else Publish(counted, i)
  }

  function DetachBatch(s: State, b: nat): (t: State)
    requires b < |s.batches|
    ensures SameSession(s, t)
  {
    var x := s.batches[b];
    SetBatch(s, b, x.(stage := Detached)).(
      batchFailures := if x.Failed() then s.batchFailures + 1 else 0,
      current := if s.current == Some(b) then None else s.current)
  }

  // The end of a fallback encode, whose result replaces the file if it succeeded
  function EndFallback(s: State, success: bool): State
    requires s.lock.Encoding?
  {
    var t := s.(lock := Free, free := s.free + 1);
    if success then
      t.(files := s.files[s.lock.index := File(s.clock, false)], completed := s.completed + {s.lock.index},
         clock := s.clock + 1)
    else t
  }

  // ---- steps and runs ----

  predicate NoneRunning(s: State) {
    forall b :: 0 <= b < |s.batches| ==> s.batches[b].stage != Running
  }

  predicate NoneLive(s: State) {
    forall b :: 0 <= b < |s.batches| ==> !s.batches[b].Live()
  }

  // The driver of a render is between two of its tasks: it waits for each encoder to end before anything else.
  predicate DriverFree(s: State) {
    s.lock.Free? && s.looked == multiset{} && NoneRunning(s)
  }

  // The fallback is for segments a copy batch has given up; a render driver also uses it for any segment
  // that is still missing when its batch has ended.
  predicate MayFallBack(s: State, i: nat) {
    i < s.count && if s.render then DriverFree(s) else i in s.fallback
  }

  // A watcher that has been left behind reads on in the list of a later batch.
  predicate Listed(s: State, b: nat, i: nat)
    requires b < |s.batches|
  {
    && s.batches[b].first <= i < s.batches[b].end
    && exists c :: b < c < |s.batches| && s.batches[c].first <= i < s.batches[c].cursor
  }

  predicate Reads(s: State, b: nat) {
    b < |s.batches| && s.batches[b].Live() && !s.batches[b].broken && s.batches[b].checking.None?
  }

  predicate Enabled(s: State, e: Event) {
    match e
    case Ensure(index, _, _) => s.lock.Free? && index < s.count && (s.render ==> DriverFree(s))
    case EnsureRest(_) => s.lock.Stopping? && s.lock.b < |s.batches|
    case StartSlot(_) => s.lock.Starting?
    case Stop => s.lock.Free? && (s.render ==> s.looked == multiset{})
    case StopDone => s.lock.Halting? && s.lock.b < |s.batches|
    case Prefetch(b, _, _) =>
      !s.render && s.lock.Free? && b < |s.batches| && s.batches[b].stage == Released && !s.batches[b].Failed()
    case Write(b, _) => b < |s.batches| && s.batches[b].stage == Running && s.batches[b].cursor < s.batches[b].end
    case Close(b) => b < |s.batches| && s.batches[b].stage == Running && s.batches[b].cursor < s.batches[b].end
    case Exit(b, _) => b < |s.batches| && s.batches[b].stage == Running
    case Timeout(b) => b < |s.batches| && s.batches[b].stage == Running && s.batches[b].checking.None?
    case WatcherFails(b) => b < |s.batches| && s.batches[b].Live() && !s.batches[b].broken
    case Check(b) => Reads(s, b) && s.batches[b].read < s.batches[b].cursor
    case Reread(b, i) => Reads(s, b) && s.batches[b].stage == Exited && Listed(s, b, i)
    case Verdict(b, _) => b < |s.batches| && s.batches[b].Live() && s.batches[b].checking.Some?
    case Detach(b) => b < |s.batches| && s.batches[b].stage == Exited && s.batches[b].checking.None?
    case Release(b) => b < |s.batches| && s.batches[b].stage == Detached
    case Look(i) => MayFallBack(s, i) && HasFile(s, i)
    case Accept(i) => i in s.looked
    case FallbackBegin(i) => s.lock.Free? && MayFallBack(s, i) && !HasFile(s, i)
    case FallbackSlot(_) => s.lock.Awaiting?
    case FallbackEnd(_) => s.lock.Encoding?
    case Request(index) => index < s.count
    case OtherAcquire => s.free > 0
    case OtherRelease => s.others > 0
  }

  ghost function Step(s: State, e: Event): State
    requires Enabled(s, e)
  {
    match e
    case Ensure(index, limit, recent) => EnsureBatch(s, index, limit, recent)
    case EnsureRest(recent) => StartFresh(Abandon(s), s.lock.index, s.lock.limit, recent)
    case StartSlot(got) => StartBatch(s, got)
    case Stop => StopBatch(s)
    case StopDone => Abandon(s)
    case Prefetch(b, wanted, recent) => PrefetchNext(s, b, wanted, recent)
    case Write(b, empty) =>
      s.(files := s.files[s.batches[b].cursor := File(s.clock, empty)], clock := s.clock + 1)
    case Close(b) => SetBatch(s, b, s.batches[b].(cursor := s.batches[b].cursor + 1))
    case Exit(b, ok) => SetBatch(s, b, s.batches[b].(stage := Exited, ok := ok))
    case Timeout(b) => SetBatch(s, b, s.batches[b].(stage := Exited, ok := false, timedOut := true))
    case WatcherFails(b) => SetBatch(s, b, Broken(s.batches[b]))
    case Check(b) => TakeUp(s, b, s.batches[b].(read := s.batches[b].read + 1), s.batches[b].read)
    case Reread(b, i) => TakeUp(s, b, s.batches[b], i)
    case Verdict(b, valid) =>
      Judge(SetBatch(s, b, s.batches[b].(checking := None)), s.batches[b].checking.value, valid)
    case Detach(b) => DetachBatch(s, b)
    case Release(b) => SetBatch(s, b, s.batches[b].(stage := Released)).(free := s.free + 1)
    case Look(i) => s.(looked := s.looked + multiset{i})
    case Accept(i) => s.(looked := s.looked - multiset{i}, completed := s.completed + {i})
    case FallbackBegin(i) => s.(lock := Awaiting(i))
    case FallbackSlot(got) =>
      if got && s.free > 0 then s.(free := s.free - 1, lock := Encoding(s.lock.index)) else s.(lock := Free)
    case FallbackEnd(success) => EndFallback(s, success)
    case Request(index) => s.(playhead := index)
    case OtherAcquire => s.(free := s.free - 1, others := s.others + 1)
    case OtherRelease => s.(free := s.free + 1, others := s.others - 1)
  }

  ghost function Initial(count: nat, copy: bool, render: bool): State {
    State(count, copy, render, map[], {}, {}, map[], multiset{}, [], None, Free, HLS_MAX_CONCURRENT, 0, 0, 0, 0)
  }

  // Events that cannot happen where they stand are skipped.
  ghost function Run(s: State, es: seq<Event>): State {
    if es == [] then s
    else
      var t := Run(s, es[..|es| - 1]);
      if Enabled(t, es[|es| - 1]) then Step(t, es[|es| - 1]) else t
  }

  // ---- what every run keeps ----

  // The one batch that may be running is the session's current one.
  ghost predicate OneRunning(s: State) {
    && (s.current.Some? ==> s.current.value < |s.batches| && s.batches[s.current.value].Live())
    && (forall b :: 0 <= b < |s.batches| && s.batches[b].stage == Running ==> s.current == Some(b))
    && (s.lock.Stopping? || s.lock.Halting? ==>
          s.lock.b < |s.batches| && s.batches[s.lock.b].stage != Running
          && (s.current.Some? ==> s.current.value == s.lock.b))
    && (s.lock.Stopping? || s.lock.Awaiting? || s.lock.Encoding? ==> s.lock.index < s.count)
    && (s.lock.Starting? ==> s.lock.first < s.lock.end <= s.count && s.current.None?)
  }

  ghost predicate InRange(x: Batch, count: nat) {
    && x.first <= x.read <= x.cursor <= x.end <= count
    && (x.checking.Some? ==> x.first <= x.checking.value < x.end)
  }

  ghost predicate Ranges(s: State) {
    forall b :: 0 <= b < |s.batches| ==> InRange(s.batches[b], s.count)
  }

  ghost function Held(batches: seq<Batch>): nat {
    if batches == [] then 0
    else Held(batches[..|batches| - 1]) + if batches[|batches| - 1].stage == Released then 0 else 1
  }

  // No encoder slot is ever lost or invented.
  ghost predicate Slots(s: State) {
    s.free + Held(s.batches) + s.others + (if s.lock.Encoding? then 1 else 0) == HLS_MAX_CONCURRENT
  }

  // In a transcoded session nothing is given up, and a segment is encoded again at most twice because it
  // failed validation.
  ghost predicate Retries(s: State) {
    && (!s.copy ==> s.fallback == {} && forall i :: i in s.attempts ==> 0 < s.attempts[i] < MAX_VALIDATION_ATTEMPTS)
    && (!s.copy && !s.render ==> s.looked == multiset{} && !s.lock.Awaiting? && !s.lock.Encoding?)
    && forall i :: i in s.looked ==> i < s.count
  }

  ghost predicate Core(s: State) {
    OneRunning(s) && Ranges(s) && Slots(s) && Retries(s)
  }

  lemma {:induction false} HeldUpdate(batches: seq<Batch>, b: nat, x: Batch)
    requires b < |batches|
    ensures Held(batches[b := x]) == Held(batches) - (if batches[b].stage == Released then 0 else 1)
                                     + (if x.stage == Released then 0 else 1)
  {
    var n := |batches| - 1;
    if b < n {
      HeldUpdate(batches[..n], b, x);
      assert batches[b := x][..n] == batches[..n][b := x];
    } else {
      assert batches[b := x][..n] == batches[..n];
    }
  }

  lemma HeldSnoc(batches: seq<Batch>, x: Batch)
    ensures Held(batches + [x]) == Held(batches) + if x.stage == Released then 0 else 1
  {
    assert (batches + [x])[..|batches|] == batches;
  }

  // One batch moves on, and is let go of when it stops being live.
  ghost predicate Moves(s: State, b: nat, x: Batch, t: State) {
    && b < |s.batches|
    && t == SetBatch(s, b, x).(free := t.free, current := t.current, batchFailures := t.batchFailures, lock := t.lock)
    && InRange(x, s.count) && x.first == s.batches[b].first && x.end == s.batches[b].end
    && (x.Live() ==> s.batches[b].Live()) && (x.stage == Running ==> s.batches[b].stage == Running)
    && (s.batches[b].stage == Released ==> x.stage == Released)
    && t.current == (if x.Live() || s.current != Some(b) then s.current else None)
    && t.free == s.free + (if x.stage == Released && s.batches[b].stage != Released then 1 else 0)
    && (t.lock == s.lock ||
        (s.lock.Free? && x.stage != Running && s.current == Some(b)
         && (t.lock == Halting(b) || (t.lock.Stopping? && t.lock.b == b && t.lock.index < s.count))))
  }

  lemma MovesCore(s: State, b: nat, x: Batch, t: State)
    requires Core(s) && Moves(s, b, x, t)
    ensures Core(t)
  {
    HeldUpdate(s.batches, b, x);
    hide Held;
  }

  // Steps that leave batches, locks and slots alone
  lemma OthersCore(s: State, t: State)
    requires Core(s)
    requires t == s.(files := t.files, completed := t.completed, fallback := t.fallback, attempts := t.attempts,
                     looked := t.looked, batchFailures := t.batchFailures, playhead := t.playhead, clock := t.clock)
    requires Retries(t)
    ensures Core(t)
  {
  }

  lemma RetriesSame(s: State, t: State)
    requires Core(s)
    requires t == s.(files := t.files, completed := t.completed, batchFailures := t.batchFailures,
                     playhead := t.playhead, clock := t.clock)
    ensures Core(t)
  {
    OthersCore(s, t);
  }

  // A published segment has a file with something in it.
  ghost predicate Published(s: State) {
    forall i :: i in s.completed ==> i < s.count && HasFile(s, i)
  }

  lemma ForgetOnly(s: State, i: nat)
    ensures Forget(s, i) == s.(completed := Forget(s, i).completed)
  {
  }

  // StartFresh is a clean-up and the choice of a range.
  lemma StartFreshIs(s: State, index: nat, limit: Option<nat>, recent: bool) returns (t: State, end: nat)
    requires index < s.count
    ensures t == Clean(s).(completed := t.completed, batchFailures := t.batchFailures)
    ensures index < end <= s.count
    ensures StartFresh(s, index, limit, recent) == if BacksOff(s, recent) then t else t.(lock := Starting(index, end))
  {
    hide Clean, Ok, Forget;
    ForgetOnly(Clean(s), index);
    t, end := Forget(Clean(s), index), s.count;
    if !BacksOff(s, recent) {
      var calm := t.(batchFailures := if s.batchFailures >= 3 then 0 else s.batchFailures);
      var wide := WideEnd(index, limit, s.count);
      var c := FirstCompleted(calm.completed, index + 1, wide);
      ForgetOnly(calm, c);
      t, end := if c < wide then Forget(calm, c) else calm, if c < wide && !Ok(calm, c) then wide else c;
    }
  }

  // When every published segment has its file, nothing is forgotten and the range stops at the first of them.
  lemma StartFreshPublished(s: State, index: nat, limit: Option<nat>, recent: bool) returns (t: State, end: nat)
    requires index < s.count && Published(s)
    ensures t == Clean(s).(batchFailures := t.batchFailures)
    ensures index < end <= WideEnd(index, limit, s.count) && forall i :: index < i < end ==> i !in s.completed
    ensures end < WideEnd(index, limit, s.count) ==> end in s.completed
    ensures StartFresh(s, index, limit, recent) == if BacksOff(s, recent) then t else t.(lock := Starting(index, end))
  {
    t := Clean(s);
    assert forall i :: i in s.completed ==> Ok(t, i);
    hide Clean, Ok;
    var wide := WideEnd(index, limit, s.count);
    end := FirstCompleted(s.completed, index + 1, wide);
    if !BacksOff(s, recent) {
      t := t.(batchFailures := if s.batchFailures >= 3 then 0 else s.batchFailures);
      SameOk(Clean(s), t, end);
    }
  }

  lemma SameOk(s: State, t: State, i: nat)
    requires t == s.(batchFailures := t.batchFailures)
    ensures Ok(t, i) == Ok(s, i)
  {
  }

  lemma StartingCore(s: State, first: nat, end: nat)
    requires Core(s) && s.current.None? && s.lock.Free? && first < end <= s.count
    ensures Core(s.(lock := Starting(first, end)))
  {
    hide Held;
  }

  lemma StartFreshCore(s: State, index: nat, limit: Option<nat>, recent: bool)
    requires Core(s) && s.current.None? && s.lock.Free? && index < s.count
    ensures Core(StartFresh(s, index, limit, recent))
  {
    var t, end := StartFreshIs(s, index, limit, recent);
    hide StartFresh, Core, Clean;
    RetriesSame(s, t);
    StartingCore(t, index, end);
  }

  lemma StartBatchCore(s: State, got: bool)
    requires Core(s) && s.lock.Starting?
    ensures Core(StartBatch(s, got))
  {
    hide Held;
    if got && s.free > 0 {
      var x := NewBatch(s.lock.first, s.lock.end);
      HeldSnoc(s.batches, x);
      assert OneRunning(StartBatch(s, got)) by { hide Ranges, Slots, Retries; }
      assert Ranges(StartBatch(s, got)) by { hide Slots, Retries; }
    }
  }

  lemma AbandonCore(s: State)
    requires Core(s) && (s.lock.Stopping? || s.lock.Halting?)
    ensures Core(Abandon(s)) && NoneRunning(s)
  {
    hide Held;
  }

  lemma KilledMoves(s: State, lock: Lock)
    requires Core(s) && s.current.Some? && s.lock.Free?
    requires lock == Halting(s.current.value) || (lock.Stopping? && lock.b == s.current.value && lock.index < s.count)
    ensures s.current.value < |s.batches|
    ensures var x := Killed(s.batches[s.current.value]);
            Moves(s, s.current.value, x, SetBatch(s, s.current.value, x).(lock := lock))
  {
  }

  lemma EnsureCore(s: State, index: nat, limit: Option<nat>, recent: bool)
    requires Core(s) && s.lock.Free? && index < s.count
    ensures Core(EnsureBatch(s, index, limit, recent))
  {
    hide StartFresh;
    if s.current.Some? {
      var b := s.current.value;
      KilledMoves(s, Stopping(b, index, limit));
      MovesCore(s, b, Killed(s.batches[b]), SetBatch(s, b, Killed(s.batches[b])).(lock := Stopping(b, index, limit)));
    } else {
      StartFreshCore(s, index, limit, recent);
    }
    hide Core;
  }

  lemma StopCore(s: State)
    requires Core(s) && s.lock.Free?
    ensures Core(StopBatch(s))
  {
    if s.current.Some? {
      var b := s.current.value;
      KilledMoves(s, Halting(b));
      MovesCore(s, b, Killed(s.batches[b]), StopBatch(s));
    }
  }

  // What a batch or its watcher does to the batch alone
  predicate OwnEvent(e: Event) {
    e.Close? || e.Exit? || e.Timeout? || e.WatcherFails? || e.Check? || e.Reread? || e.Detach? || e.Release?
  }

  lemma OwnMoves(s: State, e: Event)
    requires Core(s) && Enabled(s, e) && OwnEvent(e)
    ensures e.b < |Step(s, e).batches| == |s.batches|
    ensures Moves(s, e.b, Step(s, e).batches[e.b], Step(s, e))
  {
    hide Core, Moves;
    if e.Check? || e.Reread? {
      ReadMoves(s, e);
    } else if e.Detach? || e.Release? {
      LetGoMoves(s, e);
    } else {
      EncoderMoves(s, e);
    }
    hide Step, Enabled;
  }

  lemma ReadMoves(s: State, e: Event)
    requires Core(s) && Enabled(s, e) && (e.Check? || e.Reread?)
    ensures e.b < |Step(s, e).batches| == |s.batches|
    ensures Moves(s, e.b, Step(s, e).batches[e.b], Step(s, e))
  {
    hide Core, Skips, Listed;
    BatchIs(s, e.b);
    if e.Reread? {
      ListedInside(s, e.b, e.index);
    }
  }

  lemma LetGoMoves(s: State, e: Event)
    requires Core(s) && Enabled(s, e) && (e.Detach? || e.Release?)
    ensures e.b < |Step(s, e).batches| == |s.batches|
    ensures Moves(s, e.b, Step(s, e).batches[e.b], Step(s, e))
  {
    hide Core;
    BatchIs(s, e.b);
  }

  lemma EncoderMoves(s: State, e: Event)
    requires Core(s) && Enabled(s, e) && (e.Close? || e.Exit? || e.Timeout? || e.WatcherFails?)
    ensures e.b < |Step(s, e).batches| == |s.batches|
    ensures Moves(s, e.b, Step(s, e).batches[e.b], Step(s, e))
  {
    hide Core;
    BatchIs(s, e.b);
  }

  lemma ListedInside(s: State, b: nat, i: nat)
    requires b < |s.batches| && Listed(s, b, i)
    ensures s.batches[b].first <= i < s.batches[b].end
  {
  }

  lemma BatchIs(s: State, b: nat)
    requires Core(s) && b < |s.batches|
    ensures InRange(s.batches[b], s.count)
    ensures !s.batches[b].Live() ==> s.current != Some(b)
  {
    hide Slots, Retries;
  }

  lemma VerdictMoves(s: State, b: nat, valid: bool)
    requires Core(s) && Enabled(s, Verdict(b, valid))
    ensures var x := s.batches[b].(checking := None); Moves(s, b, x, SetBatch(s, b, x))
  {
  }

  lemma JudgeCore(s: State, i: nat, valid: bool)
    requires Core(s)
    ensures Core(Judge(s, i, valid))
  {
    hide OneRunning, Ranges, Slots;
    var t := Judge(s, i, valid);
    assert Retries(t);
    OthersCore(s, t);
  }

  // Only the lock and the free slots change.
  lemma LockCore(s: State, t: State)
    requires Core(s) && t == s.(lock := t.lock, free := t.free)
    requires t.lock.Free? || ((t.lock.Awaiting? || t.lock.Encoding?) && t.lock.index < s.count && (s.copy || s.render))
    requires t.free + (if t.lock.Encoding? then 1 else 0) == s.free + (if s.lock.Encoding? then 1 else 0)
    ensures Core(t)
  {
    hide Held, InRange;
  }

  lemma FallbackCore(s: State, e: Event)
    requires Core(s) && Enabled(s, e) && (e.FallbackBegin? || e.FallbackSlot? || e.FallbackEnd?)
    ensures Core(Step(s, e))
  {
    FallbackAllowed(s, e);
    hide Core;
    if e.FallbackEnd? {
      var u := s.(lock := Free, free := s.free + 1);
      LockCore(s, u);
      RetriesSame(u, Step(s, e));
    } else {
      LockCore(s, Step(s, e));
    }
  }

  lemma FallbackAllowed(s: State, e: Event)
    requires Core(s) && Enabled(s, e) && (e.FallbackBegin? || e.FallbackSlot? || e.FallbackEnd?)
    ensures s.copy || s.render
    ensures e.FallbackSlot? ==> s.lock.index < s.count
  {
    hide Slots, Ranges;
  }

  lemma OtherSlots(s: State, e: Event)
    requires Core(s) && Enabled(s, e) && (e.OtherAcquire? || e.OtherRelease?)
    ensures Core(Step(s, e))
  {
    hide Held, InRange;
    hide StartFresh, EnsureBatch, Judge, StopBatch, StartBatch, TakeUp, DetachBatch, PrefetchNext, EndFallback;
  }

  lemma LookCore(s: State, e: Event)
    requires Core(s) && Enabled(s, e) && (e.Look? || e.Accept?)
    ensures Core(Step(s, e))
  {
    hide OneRunning, Ranges, Slots;
    assert Retries(Step(s, e));
    OthersCore(s, Step(s, e));
  }

  lemma PrefetchCore(s: State, e: Event)
    requires Core(s) && Enabled(s, e) && e.Prefetch?
    ensures Core(Step(s, e)) && Step(s, e).count == s.count
  {
    hide Core, EnsureBatch;
    var start := FirstMissing(s, s.batches[e.b].first, s.batches[e.b].end);
    if start < s.count {
      EnsureCore(s, start, None, e.recent);
    }
  }

  lemma VerdictCore(s: State, b: nat, valid: bool)
    requires Core(s) && Enabled(s, Verdict(b, valid))
    ensures Core(Step(s, Verdict(b, valid))) && Step(s, Verdict(b, valid)).count == s.count
  {
    hide Core, Judge, Moves;
    var x := s.batches[b].(checking := None);
    VerdictMoves(s, b, valid);
    MovesCore(s, b, x, SetBatch(s, b, x));
    JudgeCore(SetBatch(s, b, x), s.batches[b].checking.value, valid);
  }

  lemma OwnCore(s: State, e: Event)
    requires Core(s) && Enabled(s, e) && OwnEvent(e)
    ensures Core(Step(s, e)) && Step(s, e).count == s.count
  {
    hide Core, Step, Enabled;
    OwnMoves(s, e);
    MovesCore(s, e.b, Step(s, e).batches[e.b], Step(s, e));
    StepSession(s, e);
  }

  lemma StepCore(s: State, e: Event)
    requires Core(s) && Enabled(s, e)
    ensures Core(Step(s, e)) && Step(s, e).count == s.count
  {
    hide Core, StartFresh, EnsureBatch, Judge, StopBatch, StartBatch, Moves, TakeUp, Broken;
    match e
    case Ensure(index, limit, recent) => EnsureCore(s, index, limit, recent);
    case EnsureRest(recent) =>
      AbandonCore(s);
      LockedIndex(s);
      StartFreshCore(Abandon(s), s.lock.index, s.lock.limit, recent);
    case StartSlot(got) => StartBatchCore(s, got);
    case Stop => StopCore(s);
    case StopDone => AbandonCore(s);
    case Prefetch(_, _, _) => PrefetchCore(s, e);
    case Write(b, empty) => RetriesSame(s, Step(s, e));
    case Verdict(b, valid) => VerdictCore(s, b, valid);
    case Request(index) => RetriesSame(s, Step(s, e));
    case Look(_) | Accept(_) => LookCore(s, e);
    case Close(_) | Exit(_, _) | Timeout(_) | WatcherFails(_) | Check(_) | Reread(_, _) | Detach(_) | Release(_) =>
      OwnCore(s, e);
    case OtherAcquire | OtherRelease => OtherSlots(s, e);
    case _ => FallbackCore(s, e);
  }

  lemma LockedIndex(s: State)
    requires Core(s) && s.lock.Stopping?
    ensures s.lock.index < s.count
  {
  }

  lemma StepSession(s: State, e: Event)
    requires Enabled(s, e)
    ensures SameSession(s, Step(s, e))
  {
    hide StartFresh, EnsureBatch, StopBatch, StartBatch, PrefetchNext, Judge, DetachBatch, TakeUp;
  }

  lemma InitialCore(count: nat, copy: bool, render: bool)
    ensures Core(Initial(count, copy, render))
  {
  }

  /** In every run, however the waits end: at most one encoder process runs, and it is the session's; the encoder
      slots add up, on every success, failure, kill, abandoned watcher and start that did not happen; retries stay
      bounded. */
  lemma {:induction false} RunCore(count: nat, copy: bool, render: bool, es: seq<Event>)
    ensures var s := Run(Initial(count, copy, render), es);
            && s.free + Held(s.batches) + s.others + (if s.lock.Encoding? then 1 else 0) == HLS_MAX_CONCURRENT
            && (forall b, c :: 0 <= b < |s.batches| && 0 <= c < |s.batches| ==>
                  s.batches[b].stage == Running && s.batches[c].stage == Running ==> b == c)
            && Core(s)
  {
    hide Step, Enabled, Core;
    var init := Initial(count, copy, render);
    if es == [] {
      InitialCore(count, copy, render);
    } else {
      var n := |es| - 1;
      RunCore(count, copy, render, es[..n]);
      if Enabled(Run(init, es[..n]), es[n]) {
        StepCore(Run(init, es[..n]), es[n]);
      }
    }
    CoreMeans(Run(init, es));
  }

  lemma CoreMeans(s: State)
    requires Core(s)
    ensures s.free + Held(s.batches) + s.others + (if s.lock.Encoding? then 1 else 0) == HLS_MAX_CONCURRENT
    ensures forall b, c :: 0 <= b < |s.batches| && 0 <= c < |s.batches| ==>
              s.batches[b].stage == Running && s.batches[c].stage == Running ==> b == c
  {
  }

  /** Validation cannot hold a transcoded segment back for ever: the third bad version is published, any earlier one
      is dropped so that it is encoded again. */
  lemma ThirdVersionPublished(s: State, i: nat)
    requires Core(s) && !s.copy && i !in s.completed
    ensures var t := Judge(s, i, false);
            && (i in t.completed <==> AttemptsOf(s, i) == MAX_VALIDATION_ATTEMPTS - 1)
            && (i !in t.completed ==> i !in t.files && AttemptsOf(t, i) == AttemptsOf(s, i) + 1)
  {
    assert Retries(s);
    hide OneRunning, Ranges, Slots;
  }

  /** A watcher that fails lets go of its batch with lines still unread: none of them is published, the slot comes
      back, and the failure counts even if the encoder ended well or was stopped. */
  lemma WatcherFailureCounts(s: State, b: nat)
    requires Core(s) && Enabled(s, WatcherFails(b))
    ensures var t := Step(s, WatcherFails(b));
            && !Enabled(t, Check(b)) && (forall valid :: !Enabled(t, Verdict(b, valid))) && Enabled(t, Detach(b))
            && var u := Step(t, Detach(b));
               && u.batchFailures == s.batchFailures + 1 && u.completed == s.completed && u.current != Some(b)
               && Enabled(u, Release(b)) && Step(u, Release(b)).free == s.free + 1
  {
    hide Core, Listed, Skips;
  }

  /** A batch counts as a failure when its watcher lets go of it, if it ran out of time, its watcher failed, or its
      encoder ended badly without having been stopped; every other end makes the session forget earlier failures. */
  lemma FailuresCount(s: State, b: nat)
    requires Enabled(s, Detach(b))
    ensures var x, t := s.batches[b], Step(s, Detach(b));
            && t.batchFailures == (if x.timedOut || x.broken || (!x.ok && !x.stopped) then s.batchFailures + 1 else 0)
            && (s.current == Some(b) ==> t.current == None) && t.completed == s.completed && t.files == s.files
  {
  }

  /** A listed line goes under validation exactly if its segment has a file and is neither published nor given up. */
  lemma LineTakenUp(s: State, b: nat)
    requires Enabled(s, Check(b))
    ensures var i, t := s.batches[b].read, Step(s, Check(b));
            && b < |t.batches| && t.batches[b].read == i + 1
            && (t.batches[b].checking == Some(i) <==> HasFile(s, i) && i !in s.completed && i !in s.fallback)
            && (t.batches[b].checking == Some(i) || t.batches[b].checking.None?)
  {
    hide Listed, HasFile;
  }

  /** Where the next batch ends, whatever the session has lost: before the first published segment in its way if that is
      still there; otherwise at its full length, and a published segment that is gone is forgotten. */
  lemma RangeChosen(s: State, index: nat, limit: Option<nat>, c: nat)
    requires index < s.count
    ensures var wide, t := Min(index + (if limit.None? then HLS_BATCH_SEGMENTS else Max(1, limit.value)), s.count),
                           ChooseRange(s, index, limit);
            && ((forall i :: index < i < wide ==> i !in s.completed) ==> t == s.(lock := Starting(index, wide)))
            && (index < c < wide && c in s.completed && (forall i :: index < i < c ==> i !in s.completed) ==>
                  if HasFile(s, c) then t == s.(lock := Starting(index, c))
                  else t == s.(lock := Starting(index, wide), completed := s.completed - {c}))
  {
    hide HasFile;
    var wide := WideEnd(index, limit, s.count);
    if index < c < wide && c in s.completed && forall i :: index < i < c ==> i !in s.completed {
      assert FirstCompleted(s.completed, index + 1, wide) == c;
    }
  }

  /** When a prefetch starts a batch, and where: at the first segment the finished batch left out, if that is not its
      very first one, lies within the rendition and not too far ahead of the viewer, and if the viewer still wants it
      and no batch is there, was stopped or has failed. */
  lemma PrefetchGoesOn(s: State, b: nat, start: nat, wanted: bool, recent: bool)
    requires b < |s.batches| && s.batches[b].first <= start <= s.batches[b].end
    requires (forall i :: s.batches[b].first <= i < start ==> Ok(s, i)) && (start < s.batches[b].end ==> !Ok(s, start))
    ensures PrefetchNext(s, b, wanted, recent)
            == if wanted && s.current.None? && !s.batches[b].stopped && s.batchFailures == 0
                  && s.batches[b].first < start < s.count && start <= s.playhead + HLS_PREFETCH_AHEAD
               then EnsureBatch(s, start, None, recent)
               else s
  {
    hide EnsureBatch, Ok;
    FirstMissingIs(s, s.batches[b].first, s.batches[b].end);
  }

  /** What a request for a segment comes to: nothing if the segment is there, was given up or is covered by a running
      batch; otherwise a batch that is there is stopped first, and without one a batch from the segment on is asked for,
      unless the session backs off. */
  lemma EnsureDecides(s: State, index: nat, limit: Option<nat>, recent: bool)
    requires Core(s) && s.lock.Free? && index < s.count
    ensures var t := EnsureBatch(s, index, limit, recent);
            if Ok(s, index) || index in s.fallback then t == s
            else if s.current.Some? then
              var x := s.batches[s.current.value];
              if x.stage == Running && x.first <= index < x.end + HLS_BATCH_SEGMENTS then t == s
              else
                && t.lock == Stopping(s.current.value, index, limit) && NoneRunning(t) && t.files == s.files
                && t.completed == s.completed && t.batches[s.current.value].stopped
            else if s.batchFailures >= 3 && recent then t.lock.Free? && t.batches == s.batches
            else t.lock.Starting? && t.lock.first == index && t.batches == s.batches && index !in t.completed
  {
    hide StartFresh, Slots, Ranges, Retries, Clean, Abandon;
    if !Ok(s, index) && index !in s.fallback && s.current.None? {
      FreshDecides(s, index, limit, recent);
    }
  }

  lemma FreshDecides(s: State, index: nat, limit: Option<nat>, recent: bool)
    requires s.lock.Free? && index < s.count && !Ok(s, index)
    ensures var t := StartFresh(s, index, limit, recent);
            if s.batchFailures >= 3 && recent then t.lock.Free? && t.batches == s.batches
            else t.lock.Starting? && t.lock.first == index && t.batches == s.batches && index !in t.completed
  {
    var u, c := StartFreshIs(s, index, limit, recent);
    StartForgets(s, index, limit, recent);
    hide StartFresh;
  }

  // A batch is only started for what is not published, or not any more.
  lemma StartForgets(s: State, index: nat, limit: Option<nat>, recent: bool)
    requires !Ok(s, index)
    ensures index !in StartFresh(s, index, limit, recent).completed
  {
    hide FirstCompleted, WideEnd;
  }

  lemma {:induction false} FirstMissingIs(s: State, i: nat, end: nat)
    requires i <= end
    ensures var m := FirstMissing(s, i, end);
            i <= m <= end && (forall k :: i <= k < m ==> Ok(s, k)) && (m < end ==> !Ok(s, m))
    decreases end - i
  {
    hide Ok;
    if i < end && Ok(s, i) {
      FirstMissingIs(s, i + 1, end);
    }
  }

  lemma RunSnoc(s: State, es: seq<Event>, e: Event)
    ensures Run(s, es + [e]) == if Enabled(Run(s, es), e) then Step(Run(s, es), e) else Run(s, es)
  {
    assert (es + [e])[..|es|] == es;
  }
}
