/** The playback session as the worker holds it, changed in place by requests, the batch watcher and the fallback
    encoder, and the render driver that works through it (python-worker/streamlift_worker/streaming.py and
    renders.py). Every method is one or more steps of module Scheduler. */
module SessionObject {
  import opened Basics
  import opened S = Scheduler
  import opened SchedulerSafety
  import opened SchedulerWaits

  const RENDER_BUSY_RETRIES := 3

  // What the surroundings do while the driver of a render job is at its work: during one try to start a batch, while
  // it waits for an old watcher or for a slot; ...
  datatype Try = Try(recent: bool, stopWait: seq<Event>, slotWait: seq<Event>, got: bool)

  // ... during one fallback; ...
  datatype Fallback = Fallback(pause: seq<Event>, got: bool, encode: seq<Event>, success: bool)

  // ... and during one round: whether the job is cancelled, the tries with what happens before each of the next ones,
  // what happens until the encoder has ended and while the driver waits for the watcher, and the fallbacks
  datatype Round = Round(canceled: bool, tries: seq<Try>, sleeps: seq<seq<Event>>, life: seq<Event>, join: seq<Event>,
                         fallbacks: seq<Fallback>)

  datatype Driven = Done | Canceled | Busy | Missing | StillRunning

  // What a batch, a watcher or another session does
  predicate LifeEvent(e: Event) {
    OwnEvent(e) || e.Write? || e.Verdict? || e.OtherAcquire? || e.OtherRelease?
  }

  // A try that gets no batch: the session backs off, or no slot comes in time
  ghost predicate Refused(s: State, e: Event) {
    match e
    case Ensure(index, _, recent) =>
      !Ok(s, index) && index !in s.fallback && s.current.None? && BacksOff(s, recent)
    case EnsureRest(recent) => BacksOff(s, recent)
    case StartSlot(got) => !(got && s.free > 0)
    case _ => false
  }

  // The segment whose fallback comes to nothing: no slot comes in time, or the encode fails
  ghost function Spoilt(s: State, e: Event): multiset<nat> {
    match e
    case FallbackSlot(got) => if s.lock.Awaiting? && !(got && s.free > 0) then multiset{s.lock.index} else multiset{}
    case FallbackEnd(success) => if s.lock.Encoding? && !success then multiset{s.lock.index} else multiset{}
    case _ => multiset{}
  }

  ghost function Refusals(s: State, es: seq<Event>): nat {
    if es == [] then 0
    else Refusals(s, es[..|es| - 1]) + if Refused(Run(s, es[..|es| - 1]), es[|es| - 1]) then 1 else 0
  }

  ghost function Failures(s: State, es: seq<Event>): multiset<nat> {
    if es == [] then multiset{} else Failures(s, es[..|es| - 1]) + Spoilt(Run(s, es[..|es| - 1]), es[|es| - 1])
  }

  lemma CountsNext(s: State, es: seq<Event>, e: Event)
    ensures Refusals(s, es + [e]) == Refusals(s, es) + if Refused(Run(s, es), e) then 1 else 0
    ensures Failures(s, es + [e]) == Failures(s, es) + Spoilt(Run(s, es), e)
  {
    hide Run, Refused, Spoilt;
    assert (es + [e])[..|es|] == es;
  }

  class Session {
    const count: nat
    const copy: bool
    const render: bool
    var files: map<nat, File>
    var completed: set<nat>
    var fallback: set<nat>
    var attempts: map<nat, nat>
    var looked: multiset<nat>
    var batches: seq<Batch>
    var current: Option<nat>
    var lock: Lock
    var free: nat
    var others: nat
    var batchFailures: nat
    var playhead: nat
    var clock: nat
    // the state the session began in, and what has happened since a driver took it over
    ghost const start: State
    ghost var trace: seq<Event>

    function Now(): State
      reads this
    {
      State(count, copy, render, files, completed, fallback, attempts, looked, batches, current, lock, free, others,
            batchFailures, playhead, clock)
    }

    constructor (count: nat, copy: bool, render: bool)
      ensures Now() == Initial(count, copy, render) == start && trace == []
    {
      this.count, this.copy, this.render := count, copy, render;
      files, completed, fallback, attempts := map[], {}, {}, map[];
      looked, batches, current, lock := multiset{}, [], None, Free;
      free, others, batchFailures, playhead, clock := HLS_MAX_CONCURRENT, 0, 0, 0, 0;
      start, trace := Initial(count, copy, render), [];
    }

    // ---- _ensure_batch and what it calls ----

    method CleanPartialSegments()
      modifies this`files
      ensures Now() == Clean(old(Now()))
    {
      var names := files.Keys;
      while names != {}
        invariant names <= old(files).Keys
        invariant forall i :: i in files <==> i in old(files) && (i in names || i in completed)
        invariant forall i :: i in files ==> files[i] == old(files)[i]
        decreases |names|
      {
        var i :| i in names;
        names := names - {i};
        if i !in completed {
          files := files - {i};
        }
      }
      assert files == Clean(old(Now())).files;
    }

    method ForgetGone(i: nat)
      modifies this`completed
      ensures Now() == Forget(old(Now()), i)
    {
      if i in completed && !Ok(Now(), i) {
        completed := completed - {i};
      }
    }

    // The first published segment from i on, or end
    method FirstPublished(i: nat, end: nat) returns (c: nat)
      ensures c == FirstCompleted(completed, i, end)
    {
      c := i;
      while c < end
        invariant FirstCompleted(completed, i, end) == FirstCompleted(completed, c, end)
        decreases end - c
      {
        if c in completed {
          return;
        }
        c := c + 1;
      }
      c := end;
    }

    method ChooseRange(index: nat, limit: Option<nat>)
      modifies this`completed, this`lock
      ensures Now() == S.ChooseRange(old(Now()), index, limit)
    {
      hide Forget, WideEnd, Ok, FirstCompleted;
      var wide := WideEnd(index, limit, count);
      var candidate := FirstPublished(index + 1, wide);
      var end := candidate;
      if candidate < wide {
        if !Ok(Now(), candidate) {
          end := wide;
        }
        ForgetGone(candidate);
      }
      lock := Starting(index, end);
    }

    method StartFresh(index: nat, limit: Option<nat>, recent: bool)
      modifies this
      ensures trace == old(trace)
      ensures Now() == S.StartFresh(old(Now()), index, limit, recent)
    {
      hide Clean, Forget, S.ChooseRange;
      CleanPartialSegments();
      ForgetGone(index);
      if batchFailures >= 3 {
        if recent {
          return;
        }
        batchFailures := 0;
      }
      ChooseRange(index, limit);
    }

    method StartBatch(got: bool) returns (started: bool)
      requires lock.Starting?
      modifies this
      ensures trace == old(trace)
      ensures Now() == S.StartBatch(old(Now()), got)
      ensures started <==> got && old(free) > 0
    {
      started := got && free > 0;
      if started {
        free := free - 1;
        current := Some(|batches|);
        batches := batches + [NewBatch(lock.first, lock.end)];
      }
      lock := Free;
    }

    method KillBatch()
      requires current.Some? && current.value < |batches|
      modifies this`batches
      ensures Now() == SetBatch(old(Now()), current.value, Killed(old(batches[current.value])))
    {
      var x := batches[current.value];
      x := x.(stopped := true);
      if x.stage == Running {
        x := x.(stage := Exited, ok := false);
      }
      batches := batches[current.value := x];
    }

    method EnsureBatch(index: nat, limit: Option<nat>, recent: bool)
      modifies this
      ensures trace == old(trace)
      ensures Now() == S.EnsureBatch(old(Now()), index, limit, recent)
    {
      if Ok(Now(), index) || index in fallback {
        return;
      }
      if current.Some? && current.value < |batches| {
        var x := batches[current.value];
        if x.stage == Running && Covers(x, index) {
          return;
        }
        KillBatch();
        lock := Stopping(current.value, index, limit);
        return;
      }
      StartFresh(index, limit, recent);
    }

    method PrefetchNext(b: nat, wanted: bool, recent: bool)
      requires b < |batches|
      modifies this
      ensures trace == old(trace)
      ensures Now() == S.PrefetchNext(old(Now()), b, wanted, recent)
    {
      var x := batches[b];
      if !wanted || current.Some? || x.stopped || batchFailures > 0 {
        return;
      }
      var start := x.first;
      while start < x.end && Ok(Now(), start)
        invariant FirstMissing(Now(), x.first, x.end) == FirstMissing(Now(), start, x.end)
        decreases x.end - start
      {
        start := start + 1;
      }
      if start == x.first || start >= count || start > playhead + HLS_PREFETCH_AHEAD {
        return;
      }
      EnsureBatch(start, None, recent);
    }

    // ---- the watcher ----

    method TakeUp(b: nat, i: nat)
      requires b < |batches|
      modifies this`batches
      ensures Now() == S.TakeUp(old(Now()), b, old(batches[b]), i)
    {
      if HasFile(Now(), i) && i !in completed && i !in fallback {
        batches := batches[b := batches[b].(checking := Some(i))];
      }
      assert batches == old(batches)[b := batches[b]];
    }

    method Judge(i: nat, valid: bool)
      modifies this
      ensures trace == old(trace)
      ensures Now() == S.Judge(old(Now()), i, valid)
    {
      if !valid {
        var a := AttemptsOf(Now(), i) + 1;
        attempts := attempts[i := a];
        if copy {
          files := files - {i};
          fallback := fallback + {i};
          return;
        }
        if a < MAX_VALIDATION_ATTEMPTS {
          files := files - {i};
          return;
        }
      }
      attempts := attempts - {i};
      completed := completed + {i};
    }

    method Detach(b: nat)
      requires b < |batches|
      modifies this
      ensures trace == old(trace)
      ensures Now() == DetachBatch(old(Now()), b)
    {
      var x := batches[b];
      batches := batches[b := x.(stage := Detached)];
      if x.Failed() {
        batchFailures := batchFailures + 1;
      } else {
        batchFailures := 0;
      }
      if current == Some(b) {
        current := None;
      }
    }

    method StopBatch()
      modifies this
      ensures trace == old(trace)
      ensures Now() == S.StopBatch(old(Now()))
    {
      if current.Some? && current.value < |batches| {
        KillBatch();
        lock := Halting(current.value);
      }
    }

    // ---- any step ----

    method PerformEncoder(e: Event)
      requires Enabled(Now(), e) && (e.Close? || e.Exit? || e.Timeout? || e.WatcherFails?)
      modifies this`batches
      ensures Now() == Step(old(Now()), e)
    {
      EncoderIs(Now(), e);
      hide Step, Enabled, Broken;
      var b := e.b;
      if e.Close? {
        batches := batches[b := batches[b].(cursor := batches[b].cursor + 1)];
      } else if e.Exit? {
        batches := batches[b := batches[b].(stage := Exited, ok := e.ok)];
      } else if e.Timeout? {
        batches := batches[b := batches[b].(stage := Exited, ok := false, timedOut := true)];
      } else {
        BreakWatcher(b);
      }
    }

    method PerformWatcher(e: Event)
      requires Enabled(Now(), e) && (e.Check? || e.Reread? || e.Detach? || e.Release?)
      modifies this
      ensures trace == old(trace)
      ensures Now() == Step(old(Now()), e)
    {
      WatcherIs(Now(), e);
      hide Step, Enabled, S.TakeUp, DetachBatch;
      var b := e.b;
      if e.Check? {
        ReadLine(b);
      } else if e.Reread? {
        TakeUp(b, e.index);
      } else if e.Detach? {
        Detach(b);
      } else {
        batches := batches[b := batches[b].(stage := Released)];
        free := free + 1;
      }
    }

    method BreakWatcher(b: nat)
      requires b < |batches|
      modifies this`batches
      ensures Now() == SetBatch(old(Now()), b, Broken(old(batches[b])))
    {
      var x := batches[b].(broken := true, checking := None);
      if x.stage == Running {
        x := x.(stage := Exited, ok := false);
      }
      batches := batches[b := x];
    }

    method ReadLine(b: nat)
      requires b < |batches|
      modifies this`batches
      ensures Now() == S.TakeUp(old(Now()), b, old(batches[b].(read := batches[b].read + 1)), old(batches[b].read))
    {
      var i := batches[b].read;
      ghost var was := batches;
      batches := batches[b := batches[b].(read := i + 1)];
      TakeUp(b, i);
      assert batches == was[b := batches[b]];
    }

    method PerformVerdict(b: nat, valid: bool)
      requires Enabled(Now(), Verdict(b, valid))
      modifies this
      ensures trace == old(trace)
      ensures Now() == Step(old(Now()), Verdict(b, valid))
    {
      var i := batches[b].checking.value;
      batches := batches[b := batches[b].(checking := None)];
      Judge(i, valid);
    }

    method FinishFallback(success: bool)
      requires lock.Encoding?
      modifies this
      ensures trace == old(trace)
      ensures Now() == EndFallback(old(Now()), success)
    {
      var i := lock.index;
      if success {
        files := files[i := File(clock, false)];
        clock := clock + 1;
        completed := completed + {i};
      }
      lock := Free;
      free := free + 1;
    }

    method PerformAccept(e: Event)
      requires Enabled(Now(), e) && (e.Look? || e.Accept?)
      modifies this`looked, this`completed
      ensures Now() == Step(old(Now()), e)
    {
      LookedIs(Now(), e);
      hide Step, Enabled;
      if e.Look? {
        looked := looked + multiset{e.index};
      } else {
        looked := looked - multiset{e.index};
        completed := completed + {e.index};
      }
    }

    method PerformFallback(e: Event)
      requires Enabled(Now(), e) && (e.FallbackBegin? || e.FallbackSlot? || e.FallbackEnd?)
      modifies this
      ensures trace == old(trace)
      ensures Now() == Step(old(Now()), e)
    {
      hide S.EnsureBatch, S.StartFresh, S.StartBatch, S.PrefetchNext, S.StopBatch, S.DetachBatch, S.TakeUp, S.Judge;
      hide EndFallback, MayFallBack, HasFile;
      if e.FallbackBegin? {
        lock := Awaiting(e.index);
      } else if e.FallbackSlot? {
        if e.got && free > 0 {
          free := free - 1;
          lock := Encoding(lock.index);
        } else {
          lock := Free;
        }
      } else {
        FinishFallback(e.success);
      }
    }

    method PerformLocked(e: Event)
      requires Enabled(Now(), e)
      requires e.Ensure? || e.EnsureRest? || e.StartSlot? || e.Stop? || e.StopDone? || e.Prefetch?
      modifies this
      ensures trace == old(trace)
      ensures Now() == Step(old(Now()), e)
    {
      hide S.EnsureBatch, S.StartFresh, S.StartBatch, S.PrefetchNext, S.StopBatch, S.DetachBatch, S.TakeUp, S.Judge;
      if e.Ensure? {
        EnsureBatch(e.index, e.limit, e.recent);
      } else if e.EnsureRest? {
        var index, limit := lock.index, lock.limit;
        current, lock := None, Free;
        StartFresh(index, limit, e.recent);
      } else if e.StartSlot? {
        var started := StartBatch(e.got);
      } else if e.Stop? {
        StopBatch();
      } else if e.StopDone? {
        current, lock := None, Free;
      } else {
        PrefetchNext(e.b, e.wanted, e.recent);
      }
    }

    // The encoder puts the segment it is at, over whatever was there.
    method WriteSegment(b: nat, empty: bool)
      requires b < |batches|
      modifies this`files, this`clock
      ensures files == old(files[batches[b].cursor := File(clock, empty)]) && clock == old(clock) + 1
    {
      files := files[batches[b].cursor := File(clock, empty)];
      clock := clock + 1;
    }

    method PerformOther(e: Event)
      requires Enabled(Now(), e) && (e.Write? || e.Request? || e.OtherAcquire? || e.OtherRelease?)
      modifies this`files, this`clock, this`playhead, this`free, this`others
      ensures Now() == Step(old(Now()), e)
    {
      OtherIs(Now(), e);
      hide Step, Enabled;
      if e.Write? {
        WriteSegment(e.b, e.empty);
      } else if e.Request? {
        playhead := e.index;
      } else if e.OtherAcquire? {
        free, others := free - 1, others + 1;
      } else {
        free, others := free + 1, others - 1;
      }
    }

    method Perform(e: Event)
      requires Enabled(Now(), e)
      modifies this
      ensures trace == old(trace)
      ensures Now() == Step(old(Now()), e)
    {
      hide Step, Enabled;
      if e.Close? || e.Exit? || e.Timeout? || e.WatcherFails? {
        PerformEncoder(e);
      } else if e.Check? || e.Reread? || e.Detach? || e.Release? {
        PerformWatcher(e);
      } else if e.Verdict? {
        PerformVerdict(e.b, e.valid);
      } else if e.Look? || e.Accept? {
        PerformAccept(e);
      } else if e.FallbackBegin? || e.FallbackSlot? || e.FallbackEnd? {
        PerformFallback(e);
      } else if e.Write? || e.Request? || e.OtherAcquire? || e.OtherRelease? {
        PerformOther(e);
      } else {
        PerformLocked(e);
      }
    }

    // ---- the render driver ----

    // Where the driver has got to
    ghost predicate Rendering()
      reads this
    {
      render && Begun(start) && Core(Now()) && Now() == Run(start, trace)
    }

    method Advance(e: Event)
      requires Rendering() && Enabled(Now(), e)
      modifies this
      ensures Rendering() && Now() == Step(old(Now()), e) && trace == old(trace) + [e]
      ensures Refusals(start, trace) == old(Refusals(start, trace)) + if Refused(old(Now()), e) then 1 else 0
      ensures Failures(start, trace) == old(Failures(start, trace)) + Spoilt(old(Now()), e)
    {
      hide Step, Core, Enabled, Run, Begun, Refusals, Failures, Refused, Spoilt;
      StepCore(Now(), e);
      RunSnoc(start, trace, e);
      CountsNext(start, trace, e);
      Perform(e);
      trace := trace + [e];
    }

    // While the driver waits: the encoder, its watcher and the other sessions
    method RunLife(events: seq<Event>)
      requires Rendering()
      modifies this
      ensures Rendering() && Undisturbed(old(Now()), Now()) && old(trace) <= trace
      ensures Refusals(start, trace) == old(Refusals(start, trace))
      ensures Failures(start, trace) == old(Failures(start, trace))
    {
      hide Step, Core, Begun, Enabled, Undisturbed, Run, Refusals, Failures, Refused, Spoilt;
      UndisturbedSelf(Now());
      for k := 0 to |events|
        invariant Rendering() && Undisturbed(old(Now()), Now()) && old(trace) <= trace
        invariant Refusals(start, trace) == old(Refusals(start, trace))
        invariant Failures(start, trace) == old(Failures(start, trace))
      {
        var e := events[k];
        if LifeEvent(e) && Enabled(Now(), e) {
          LifeStep(old(Now()), Now(), e);
          LifeIs(Now(), e);
          Advance(e);
        }
      }
    }

    // _generate_video_fallback_segment for one segment that is missing: whether there is a segment now
    method FallBack(i: nat, task: Fallback) returns (made: bool)
      requires Rendering() && DriverFree(Now()) && i < count
      modifies this
      ensures Rendering() && DriverFree(Now()) && old(trace) <= trace
      ensures Refusals(start, trace) == old(Refusals(start, trace))
      ensures Failures(start, trace) == old(Failures(start, trace)) + if made then multiset{} else multiset{i}
      ensures made ==> i in completed && (WaitedRun(start, trace) ==> Ok(Now(), i))
    {
      hide Core, Begun, Step, Enabled, DriverFree, NoneRunning, NoneLive, HasFile, Run, WaitedRun, Refusals, Failures;
      hide Refused, Spoilt, Ok;
      if HasFile(Now(), i) {
        AcceptFile(i, task.pause);
        made := true;
      } else {
        made := EncodeFallback(i, task);
      }
      CompletedOk(start, trace, i);
    }

    // The file that is there is taken for the segment.
    method AcceptFile(i: nat, pause: seq<Event>)
      requires Rendering() && DriverFree(Now()) && i < count && HasFile(Now(), i)
      modifies this
      ensures Rendering() && DriverFree(Now()) && old(trace) <= trace && i in completed
      ensures Refusals(start, trace) == old(Refusals(start, trace))
      ensures Failures(start, trace) == old(Failures(start, trace))
    {
      hide Core, Begun, Step, Enabled, DriverFree, NoneRunning, NoneLive, HasFile, Run, Refusals, Failures;
      hide Refused, Spoilt;
      LookIs(Now(), i);
      Advance(Look(i));
      RunLife(pause);
      AcceptIs(Now(), i);
      Advance(Accept(i));
    }

    method EncodeFallback(i: nat, task: Fallback) returns (made: bool)
      requires Rendering() && DriverFree(Now()) && i < count && !HasFile(Now(), i)
      modifies this
      ensures Rendering() && DriverFree(Now()) && old(trace) <= trace && (made ==> i in completed)
      ensures Refusals(start, trace) == old(Refusals(start, trace))
      ensures Failures(start, trace) == old(Failures(start, trace)) + if made then multiset{} else multiset{i}
    {
      hide Core, Begun, Step, Enabled, DriverFree, NoneRunning, NoneLive, HasFile, Run, Refusals, Failures;
      hide Refused, Spoilt;
      BeginIs(Now(), i);
      Advance(FallbackBegin(i));
      RunLife(task.pause);
      AwaitIs(Now(), i, task.got);
      made := task.got && free > 0;
      Advance(FallbackSlot(task.got));
      if made {
        RunLife(task.encode);
        EncodedIs(Now(), i, task.success);
        made := task.success;
        Advance(FallbackEnd(task.success));
      }
    }

    method FallBackRange(first: nat, end: nat, tasks: seq<Fallback>)
      requires Rendering() && DriverFree(Now()) && first <= end <= count
      modifies this
      ensures Rendering() && DriverFree(Now()) && old(trace) <= trace
      ensures Refusals(start, trace) == old(Refusals(start, trace))
      ensures old(Failures(start, trace)) <= Failures(start, trace)
      ensures WaitedRun(start, trace) ==>
                forall j :: first <= j < end ==>
                  Ok(Now(), j) || Failures(start, trace)[j] > old(Failures(start, trace))[j]
    {
      hide Core, Begun, DriverFree, NoneLive, Run, WaitedRun, Ok, Refusals, Failures;
      for i := first to end
        invariant Rendering() && DriverFree(Now()) && old(trace) <= trace
        invariant Refusals(start, trace) == old(Refusals(start, trace))
        invariant old(Failures(start, trace)) <= Failures(start, trace)
        invariant WaitedRun(start, trace) ==>
                    forall j :: first <= j < i ==>
                      Ok(Now(), j) || Failures(start, trace)[j] > old(Failures(start, trace))[j]
      {
        if !Ok(Now(), i) {
          ghost var before, was := trace, Now();
          var made := FallBack(i, if i < |tasks| then tasks[i] else Fallback([], false, [], false));
          if WaitedRun(start, trace) {
            OkSince(start, before, trace);
          }
        }
      }
    }

    method AllOk(first: nat, end: nat) returns (yes: bool)
      ensures yes <==> forall i :: first <= i < end ==> Ok(Now(), i)
    {
      for i := first to Max(first, end)
        invariant forall j :: first <= j < i ==> Ok(Now(), j)
      {
        if !Ok(Now(), i) {
          return false;
        }
      }
      return true;
    }

    // One call of _ensure_batch by the driver
    method TryBatch(first: nat, end: nat, try: Try) returns (ok: bool)
      requires Rendering() && DriverFree(Now()) && first < end <= count
      modifies this
      ensures Rendering() && lock.Free? && looked == multiset{} && old(trace) <= trace
      ensures !ok ==> NoneRunning(Now())
      ensures Refusals(start, trace) == old(Refusals(start, trace)) + if ok then 0 else 1
      ensures Failures(start, trace) == old(Failures(start, trace))
    {
      hide Core, Begun, S.StartFresh, S.EnsureBatch, Step, Enabled, NoneRunning, DriverFree, Ok, Run;
      hide Refusals, Failures, Refused, Spoilt;
      ok := Ok(Now(), first) || first in fallback;
      DriverEnsures(Now(), first, end, try.recent);
      Advance(Ensure(first, Some(end - first), try.recent));
      if lock.Stopping? {
        AwaitWatcher(try);
      }
      if lock.Starting? {
        ok := AwaitSlot(try);
      }
    }

    // The wait for the old watcher, after which the session asks for a slot, or backs off
    method AwaitWatcher(try: Try)
      requires Rendering() && lock.Stopping? && NoneRunning(Now()) && looked == multiset{}
      modifies this
      ensures Rendering() && (lock.Free? || lock.Starting?) && NoneRunning(Now()) && looked == multiset{}
      ensures old(trace) <= trace && Failures(start, trace) == old(Failures(start, trace))
      ensures Refusals(start, trace) == old(Refusals(start, trace)) + if lock.Free? then 1 else 0
    {
      hide Core, Begun, Step, Enabled, NoneRunning, NoneLive, Run, Refusals, Failures, Refused, Spoilt;
      RunLife(try.stopWait);
      RestIs(Now(), try.recent);
      Advance(EnsureRest(try.recent));
    }

    method AwaitSlot(try: Try) returns (ok: bool)
      requires Rendering() && lock.Starting? && NoneRunning(Now()) && looked == multiset{}
      modifies this
      ensures Rendering() && lock.Free? && looked == multiset{} && old(trace) <= trace
      ensures !ok ==> NoneRunning(Now())
      ensures Refusals(start, trace) == old(Refusals(start, trace)) + if ok then 0 else 1
      ensures Failures(start, trace) == old(Failures(start, trace))
    {
      hide Core, Begun, Step, Enabled, NoneRunning, NoneLive, Run, Refusals, Failures, Refused, Spoilt;
      RunLife(try.slotWait);
      ok := try.got && free > 0;
      SlotIs(Now(), try.got);
      Advance(StartSlot(try.got));
    }

    /** One round: the batch [first, end), waited for, and the segments it left out. Whatever keeps the round from being
        done has its reason: the job is cancelled, three tries were refused, the encoder has not ended, or, as long as
        no wait has given up, the fallback of some segment came to nothing. */
    method DriveBatch(first: nat, end: nat, round: Round) returns (r: Driven)
      requires Rendering() && DriverFree(Now()) && first < end <= count
      modifies this
      ensures Rendering() && old(trace) <= trace
      ensures r == Done ==> DriverFree(Now()) && forall i :: first <= i < end ==> Ok(Now(), i)
      ensures r == Canceled <==> round.canceled
      ensures r == Busy ==> Refusals(start, trace) == old(Refusals(start, trace)) + RENDER_BUSY_RETRIES
      ensures r == StillRunning ==> !NoneRunning(Now())
      ensures r == Missing && WaitedRun(start, trace) ==>
                exists i :: first <= i < end && Failures(start, trace)[i] > old(Failures(start, trace))[i]
      ensures old(Refusals(start, trace)) <= Refusals(start, trace)
      ensures old(Failures(start, trace)) <= Failures(start, trace)
    {
      hide Core, Begun, Step, NoneRunning, Run, WaitedRun, Refusals, Failures, Ok;
      if round.canceled {
        return Canceled;
      }
      var attempts, running := 0, false;
      while !running
        invariant Rendering() && lock.Free? && looked == multiset{} && attempts < RENDER_BUSY_RETRIES
        invariant old(trace) <= trace && (!running ==> NoneRunning(Now()))
        invariant Refusals(start, trace) == old(Refusals(start, trace)) + attempts
        invariant Failures(start, trace) == old(Failures(start, trace))
        decreases RENDER_BUSY_RETRIES - attempts, !running
      {
        var try := if attempts < |round.tries| then round.tries[attempts] else Try(false, [], [], false);
        running := TryBatch(first, end, try);
        if !running {
          attempts := attempts + 1;
          if attempts >= RENDER_BUSY_RETRIES {
            return Busy;
          }
          RunLife(if attempts <= |round.sleeps| then round.sleeps[attempts - 1] else []);
        }
      }
      RunLife(round.life);
      var ended := EncodersEnded();
      if !ended {
        return StillRunning;
      }
      // the wait for the watcher, which may give up
      RunLife(round.join);
      FallBackRange(first, end, round.fallbacks);
      var complete := AllOk(first, end);
      r := if complete then Done else Missing;
    }

    method EncodersEnded() returns (yes: bool)
      ensures yes <==> NoneRunning(Now())
    {
      for b := 0 to |batches|
        invariant forall c :: 0 <= c < b ==> batches[c].stage != Running
      {
        if batches[b].stage == Running {
          return false;
        }
      }
      return true;
    }

    /** When the driver returns normally, every segment of the rendition is published and has its file, unless a wait
        has given up: what earlier batches and fallbacks produced, no later batch, clean-up or fallback has disturbed.
        And it does return normally if the job is not cancelled, fewer than three tries are refused, the encoders end,
        no fallback comes to nothing and no wait gives up. Whatever happens, at most one encoder runs and the slots add
        up. */
    method DriveVideo(rounds: seq<Round>) returns (r: Driven)
      requires Rendering() && DriverFree(Now())
      modifies this
      ensures Rendering() && old(trace) <= trace
      ensures r == Done && WaitedRun(start, trace) ==> count > 0 && forall i :: 0 <= i < count ==> Ok(Now(), i)
      ensures (count > 0 && |rounds| * HLS_BATCH_SEGMENTS >= count
               && (forall k :: 0 <= k < |rounds| ==> !rounds[k].canceled)
               && Refusals(start, trace) < old(Refusals(start, trace)) + RENDER_BUSY_RETRIES && NoneRunning(Now())
               && Failures(start, trace) == old(Failures(start, trace)) && WaitedRun(start, trace))
              ==> r == Done
    {
      hide Begun, Ok, Core, DriverFree, Run, WaitedRun, NoneRunning, Refusals, Failures;
      if count == 0 {
        return Missing;
      }
      var first, k := 0, 0;
      while first < count
        invariant Rendering() && DriverFree(Now()) && old(trace) <= trace
        invariant k <= |rounds| && first == k * HLS_BATCH_SEGMENTS
        invariant WaitedRun(start, trace) ==> forall i :: 0 <= i < first && i < count ==> Ok(Now(), i)
        invariant old(Refusals(start, trace)) <= Refusals(start, trace)
        invariant old(Failures(start, trace)) <= Failures(start, trace)
        decreases count - first
      {
        if k == |rounds| {
          return StillRunning;
        }
        var end := Min(first + HLS_BATCH_SEGMENTS, count);
        ghost var before := trace;
        r := DriveBatch(first, end, rounds[k]);
        if r != Done {
          return;
        }
        if WaitedRun(start, trace) {
          KeptSince(start, before, trace, first);
        }
        first, k := first + HLS_BATCH_SEGMENTS, k + 1;
      }
      return Done;
    }
  }

  // Each step, for the events that are performed together
  lemma EncoderIs(s: State, e: Event)
    requires Enabled(s, e) && (e.Close? || e.Exit? || e.Timeout? || e.WatcherFails?)
    ensures e.b < |s.batches|
    ensures var x := s.batches[e.b];
            Step(s, e) == SetBatch(s, e.b, if e.Close? then x.(cursor := x.cursor + 1)
                                           else if e.Exit? then x.(stage := Exited, ok := e.ok)
                                           else if e.Timeout? then x.(stage := Exited, ok := false, timedOut := true)
                                           else Broken(x))
  {
  }

  lemma WatcherIs(s: State, e: Event)
    requires Enabled(s, e) && (e.Check? || e.Reread? || e.Detach? || e.Release?)
    ensures e.b < |s.batches|
    ensures var x := s.batches[e.b];
            Step(s, e) == if e.Check? then S.TakeUp(s, e.b, x.(read := x.read + 1), x.read)
                          else if e.Reread? then S.TakeUp(s, e.b, x, e.index)
                          else if e.Detach? then DetachBatch(s, e.b)
                          else SetBatch(s, e.b, x.(stage := Released)).(free := s.free + 1)
  {
    hide S.TakeUp, DetachBatch;
  }

  lemma LookedIs(s: State, e: Event)
    requires Enabled(s, e) && (e.Look? || e.Accept?)
    ensures Step(s, e) == if e.Look? then s.(looked := s.looked + multiset{e.index})
                          else s.(looked := s.looked - multiset{e.index}, completed := s.completed + {e.index})
  {
  }

  lemma OtherIs(s: State, e: Event)
    requires Enabled(s, e) && (e.Write? || e.Request? || e.OtherAcquire? || e.OtherRelease?)
    ensures (e.Write? ==> e.b < |s.batches|) && (e.OtherAcquire? ==> s.free > 0) && (e.OtherRelease? ==> s.others > 0)
    ensures Step(s, e) == if e.Write? then
                            s.(files := s.files[s.batches[e.b].cursor := File(s.clock, e.empty)], clock := s.clock + 1)
                          else if e.Request? then s.(playhead := e.index)
                          else if e.OtherAcquire? then s.(free := s.free - 1, others := s.others + 1)
                          else s.(free := s.free + 1, others := s.others - 1)
  {
  }

  // A session whose driver begins, or stands between two tasks
  ghost predicate Begun(s: State) {
    s.render && Safe(s) && Alone(s) && InTurn(s)
  }

  // A new session of a render job is where its driver begins.
  lemma BeginsRendering(count: nat, copy: bool)
    ensures var s := Initial(count, copy, true); Begun(s) && Core(s) && DriverFree(s) && Run(s, []) == s
  {
    InitialSafe(count, copy, true);
    InitialAlone(count, copy, true);
  }

  // What was published before is still published, if no wait has given up since.
  lemma {:induction false} KeptBetween(s: State, before: seq<Event>, trace: seq<Event>)
    requires before <= trace && WaitedRun(s, trace) && Begun(s)
    ensures WaitedRun(s, before) && Keeps(Run(s, before), Run(s, trace))
    decreases |trace|
  {
    hide Step, Enabled, Safe, Alone, InTurn, Keeps, Waited, DriverWaits, Run;
    if before == trace {
      KeepsSelf(Run(s, trace));
    } else {
      var n := |trace| - 1;
      assert before <= trace[..n];
      KeptBetween(s, before, trace[..n]);
      RenderRunKeeps(s, before);
      RenderRunKeeps(s, trace[..n]);
      RunLast(s, trace);
      var t := Run(s, trace[..n]);
      if Enabled(t, trace[n]) {
        RenderStep(Run(s, before), t, trace[n]);
      }
    }
  }

  lemma RunLast(s: State, es: seq<Event>)
    requires es != []
    ensures var t := Run(s, es[..|es| - 1]);
            Run(s, es) == if Enabled(t, es[|es| - 1]) then Step(t, es[|es| - 1]) else t
  {
    hide Step, Enabled;
  }

  // A segment that is published has its file, if no wait has given up.
  lemma CompletedOk(s: State, trace: seq<Event>, i: nat)
    requires Begun(s)
    ensures WaitedRun(s, trace) && i in Run(s, trace).completed ==> Ok(Run(s, trace), i)
  {
    hide Run, WaitedRun, Alone, InTurn, Core, Keeps;
    if WaitedRun(s, trace) {
      RenderRunKeeps(s, trace);
      SafeParts(Run(s, trace));
    }
  }

  lemma OkSince(s: State, before: seq<Event>, trace: seq<Event>)
    requires before <= trace && Begun(s) && WaitedRun(s, trace)
    ensures WaitedRun(s, before)
    ensures forall i :: Ok(Run(s, before), i) ==> Ok(Run(s, trace), i)
  {
    hide Run, WaitedRun, Alone, InTurn, Core;
    KeptBetween(s, before, trace);
    RenderRunKeeps(s, trace);
    SafeParts(Run(s, trace));
    hide Safe;
  }

  lemma KeptSince(s: State, before: seq<Event>, trace: seq<Event>, first: nat)
    requires before <= trace && Begun(s) && WaitedRun(s, trace)
    ensures WaitedRun(s, before)
    ensures (forall i :: 0 <= i < first ==> Ok(Run(s, before), i)) ==>
              forall i :: 0 <= i < first ==> Ok(Run(s, trace), i)
  {
    hide Run, WaitedRun, Alone, InTurn, Core, Keeps;
    KeptBetween(s, before, trace);
    RenderRunKeeps(s, trace);
    SafeParts(Run(s, trace));
    KeptOk(Run(s, before), Run(s, trace), first);
  }

  lemma KeptOk(s: State, t: State, end: nat)
    requires Keeps(s, t) && Published(t)
    ensures (forall i :: 0 <= i < end ==> Ok(s, i)) ==> forall i :: 0 <= i < end ==> Ok(t, i)
  {
    if forall i :: 0 <= i < end ==> Ok(s, i) {
      forall i: nat | i < end
        ensures Ok(t, i)
      {
        assert Ok(s, i);
      }
    }
  }

  // What the driver's requests lead to
  lemma DriverEnsures(s: State, first: nat, end: nat, recent: bool)
    requires Core(s) && s.render && DriverFree(s) && first < end <= s.count
    ensures var e := Ensure(first, Some(end - first), recent);
            && Enabled(s, e) && Spoilt(s, e) == multiset{}
            && var t := Step(s, e);
               && NoneRunning(t) && t.looked == multiset{}
               && (t.lock.Free? || t.lock.Starting? || t.lock.Stopping?)
               && (Ok(s, first) || first in s.fallback ==> t.lock.Free? && !Refused(s, e))
               && (!Ok(s, first) && first !in s.fallback ==> (t.lock.Free? <==> Refused(s, e)))
  {
    var u, c := StartFreshIs(s, first, Some(end - first), recent);
    hide S.StartFresh, Slots, Ranges, Retries;
  }

  lemma RestIs(s: State, recent: bool)
    requires Core(s) && s.lock.Stopping?
    ensures var e := EnsureRest(recent);
            && Enabled(s, e) && Spoilt(s, e) == multiset{}
            && var t := Step(s, e);
               && (NoneRunning(s) ==> NoneRunning(t)) && t.looked == s.looked && (t.lock.Free? || t.lock.Starting?)
               && (t.lock.Free? <==> Refused(s, e))
  {
    LockedIndex(s);
    var u, c := StartFreshIs(Abandon(s), s.lock.index, s.lock.limit, recent);
    hide S.StartFresh, Slots, Ranges, Retries;
  }

  lemma SlotIs(s: State, got: bool)
    requires s.lock.Starting?
    ensures var e := StartSlot(got);
            && Enabled(s, e) && Spoilt(s, e) == multiset{}
            && var t := Step(s, e);
               && t.lock.Free? && t.looked == s.looked && (Refused(s, e) <==> !(got && s.free > 0))
               && (!(got && s.free > 0) ==> NoneRunning(s) ==> NoneRunning(t))
  {
  }

  // What the driver's fallbacks lead to
  lemma LookIs(s: State, i: nat)
    requires s.render && DriverFree(s) && i < s.count && HasFile(s, i)
    ensures Enabled(s, Look(i)) && !Refused(s, Look(i)) && Spoilt(s, Look(i)) == multiset{}
    ensures var t := Step(s, Look(i)); t.looked == multiset{i} && t.lock.Free? && NoneRunning(t)
  {
  }

  lemma AcceptIs(s: State, i: nat)
    requires s.looked == multiset{i} && s.lock.Free? && NoneRunning(s)
    ensures Enabled(s, Accept(i)) && !Refused(s, Accept(i)) && Spoilt(s, Accept(i)) == multiset{}
    ensures DriverFree(Step(s, Accept(i))) && i in Step(s, Accept(i)).completed
  {
  }

  lemma BeginIs(s: State, i: nat)
    requires s.render && DriverFree(s) && i < s.count && !HasFile(s, i)
    ensures Enabled(s, FallbackBegin(i)) && !Refused(s, FallbackBegin(i)) && Spoilt(s, FallbackBegin(i)) == multiset{}
    ensures var t := Step(s, FallbackBegin(i)); t.looked == multiset{} && t.lock == Awaiting(i) && NoneRunning(t)
  {
  }

  lemma AwaitIs(s: State, i: nat, got: bool)
    requires s.looked == multiset{} && s.lock == Awaiting(i) && NoneRunning(s)
    ensures var e := FallbackSlot(got);
            && Enabled(s, e) && !Refused(s, e)
            && var t := Step(s, e);
               && t.looked == multiset{} && NoneRunning(t)
               && if got && s.free > 0 then t.lock == Encoding(i) && Spoilt(s, e) == multiset{}
                  else DriverFree(t) && Spoilt(s, e) == multiset{i}
  {
  }

  lemma EncodedIs(s: State, i: nat, success: bool)
    requires s.looked == multiset{} && s.lock == Encoding(i) && NoneRunning(s)
    ensures var e := FallbackEnd(success);
            && Enabled(s, e) && !Refused(s, e) && Spoilt(s, e) == (if success then multiset{} else multiset{i})
            && DriverFree(Step(s, e)) && (success ==> i in Step(s, e).completed)
  {
  }

  lemma LifeIs(s: State, e: Event)
    requires LifeEvent(e)
    ensures !Refused(s, e) && Spoilt(s, e) == multiset{}
  {
  }

  // What goes on beside the driver leaves its lock alone, starts nothing, and brings no watcher back.
  ghost predicate Undisturbed(s: State, t: State) {
    && t.lock == s.lock && t.looked == s.looked && |t.batches| == |s.batches|
    && (NoneRunning(s) ==> NoneRunning(t)) && (NoneLive(s) ==> NoneLive(t))
  }

  lemma UndisturbedSelf(s: State)
    ensures Undisturbed(s, s)
  {
  }

  lemma LifeStep(s: State, t: State, e: Event)
    requires Undisturbed(s, t) && Enabled(t, e) && LifeEvent(e)
    ensures Undisturbed(s, Step(t, e))
  {
    LifeStays(t, e);
    hide Step, Enabled, NoneRunning, NoneLive;
  }

  lemma LifeStays(s: State, e: Event)
    requires Enabled(s, e) && LifeEvent(e)
    ensures Undisturbed(s, Step(s, e))
  {
    hide Undisturbed;
    if OwnEvent(e) {
      OwnStays(s, e);
    } else {
      BesideStays(s, e);
    }
    hide Step, Enabled;
  }

  lemma OwnStays(s: State, e: Event)
    requires Enabled(s, e) && OwnEvent(e)
    ensures Undisturbed(s, Step(s, e))
  {
    hide S.EnsureBatch, S.StartFresh, S.PrefetchNext, S.StopBatch, S.StartBatch, S.Judge, Listed, Skips;
  }

  lemma BesideStays(s: State, e: Event)
    requires Enabled(s, e) && (e.Write? || e.Verdict? || e.OtherAcquire? || e.OtherRelease?)
    ensures Undisturbed(s, Step(s, e))
  {
    hide S.EnsureBatch, S.StartFresh, S.PrefetchNext, S.StopBatch, S.StartBatch, S.Judge, S.TakeUp, Listed, Skips;
    if e.Verdict? {
      JudgeStays(SetBatch(s, e.b, s.batches[e.b].(checking := None)), s.batches[e.b].checking.value, e.valid);
    }
  }

  lemma JudgeStays(s: State, i: nat, valid: bool)
    ensures var t := Judge(s, i, valid); t.batches == s.batches && t.lock == s.lock && t.looked == s.looked
  {
  }
}
