/** What it takes that every wait for a watcher ends with the watcher finished
    (python-worker/streamlift_worker/streaming.py, _stop_batch, and renders.py, _drive_video): one watcher at a time,
    and hardly any other condition. */
module SchedulerWaits {
  import opened Basics
  import opened Scheduler
  import opened SchedulerSafety

  // The wait did not give up: the watcher waited for has read everything.
  ghost predicate Waited(s: State, e: Event)
    requires Enabled(s, e)
  {
    e.EnsureRest? || e.StopDone? ==> !s.batches[s.lock.b].Live()
  }

  // The one batch that may be live is the last one and the session's, and what it has under validation is still there.
  ghost predicate Alone(s: State) {
    && (forall b :: 0 <= b < |s.batches| && s.batches[b].Live() ==> s.current == Some(b) && b == |s.batches| - 1)
    && (forall b :: 0 <= b < |s.batches| && s.batches[b].Live() && s.batches[b].checking.Some? ==>
          HasFile(s, s.batches[b].checking.value) && s.batches[b].checking.value < s.batches[b].cursor)
  }

  lemma AloneNone(s: State)
    requires Core(s) && Alone(s)
    ensures NoneLive(s) <==> s.current.None?
  {
    hide Slots, Ranges, Retries;
  }

  lemma NoneLiveAlone(s: State, t: State)
    requires NoneLive(s) && t.batches == s.batches
    ensures Alone(t)
  {
  }

  lemma FreshAlone(s: State, index: nat, limit: Option<nat>, recent: bool)
    requires NoneLive(s) && index < s.count
    ensures Alone(StartFresh(s, index, limit, recent))
  {
    var t, end := StartFreshIs(s, index, limit, recent);
    hide StartFresh, Alone;
    NoneLiveAlone(s, StartFresh(s, index, limit, recent));
  }

  lemma EnsureAlone(s: State, index: nat, limit: Option<nat>, recent: bool)
    requires Core(s) && Alone(s) && index < s.count
    ensures Alone(EnsureBatch(s, index, limit, recent))
  {
    hide StartFresh;
    AloneNone(s);
    if s.current.None? {
      FreshAlone(s, index, limit, recent);
    }
    hide Core;
  }

  lemma RestAlone(s: State, e: Event)
    requires Core(s) && Alone(s) && Enabled(s, e) && (e.EnsureRest? || e.StopDone?)
    ensures Alone(Step(s, e)) <==> Waited(s, e)
  {
    var t := Abandon(s);
    if Waited(s, e) {
      assert NoneLive(t);
      if e.EnsureRest? {
        LockedIndex(s);
        FreshAlone(t, s.lock.index, s.lock.limit, e.recent);
      }
    } else {
      if e.EnsureRest? {
        LockedIndex(s);
        var u, end := StartFreshIs(t, s.lock.index, s.lock.limit, e.recent);
      }
      assert Step(s, e).batches[s.lock.b].Live() && Step(s, e).current.None?;
    }
    hide Core, StartFresh;
  }

  lemma MovesAlone(s: State, b: nat, x: Batch, t: State)
    requires Alone(s) && Moves(s, b, x, t)
    requires x.Live() && x.checking.Some? ==> HasFile(s, x.checking.value) && x.checking.value < x.cursor
    ensures Alone(t)
  {
  }

  lemma OwnAlone(s: State, e: Event)
    requires Core(s) && Alone(s) && Enabled(s, e) && OwnEvent(e)
    ensures Alone(Step(s, e))
  {
    BatchIs(s, e.b);
    OwnMoves(s, e);
    OwnChecking(s, e);
    hide Core, Alone, Moves, Step, Enabled;
    MovesAlone(s, e.b, Step(s, e).batches[e.b], Step(s, e));
  }

  lemma OwnChecking(s: State, e: Event)
    requires Core(s) && Alone(s) && Enabled(s, e) && OwnEvent(e)
    ensures e.b < |Step(s, e).batches|
    ensures var x := Step(s, e).batches[e.b];
            x.Live() && x.checking.Some? ==> HasFile(s, x.checking.value) && x.checking.value < x.cursor
  {
    hide Core;
    if e.Reread? {
      LastOnly(s, e.b, e.index);
    }
    hide Listed;
  }

  // Nothing was listed later than the last batch.
  lemma LastOnly(s: State, b: nat, i: nat)
    requires b < |s.batches| && (s.batches[b].Live() ==> b == |s.batches| - 1)
    ensures s.batches[b].Live() ==> !Listed(s, b, i)
  {
  }

  lemma WriteAlone(s: State, b: nat, empty: bool)
    requires Alone(s) && Enabled(s, Write(b, empty))
    ensures Alone(Step(s, Write(b, empty)))
  {
  }

  lemma VerdictAlone(s: State, b: nat, valid: bool)
    requires Core(s) && Alone(s) && Enabled(s, Verdict(b, valid))
    ensures Alone(Step(s, Verdict(b, valid)))
  {
    hide Core;
  }

  lemma StartAlone(s: State, got: bool)
    requires Core(s) && Alone(s) && s.lock.Starting?
    ensures Alone(StartBatch(s, got))
  {
    AloneNone(s);
    hide Core;
  }

  lemma OtherAlone(s: State, e: Event)
    requires Core(s) && Alone(s) && Enabled(s, e)
    requires e.Look? || e.Accept? || e.FallbackBegin? || e.FallbackSlot? || e.FallbackEnd? || e.Request?
             || e.OtherAcquire? || e.OtherRelease?
    ensures Alone(Step(s, e))
  {
    hide Core, Alone, StartFresh, EnsureBatch, PrefetchNext, StopBatch, StartBatch, TakeUp, Judge, DetachBatch;
    if e.FallbackEnd? {
      EndAlone(s, e.success);
    } else {
      SameAlone(s, Step(s, e));
    }
  }

  lemma SameAlone(s: State, t: State)
    requires Alone(s) && t.batches == s.batches && t.current == s.current && t.files == s.files
    ensures Alone(t)
  {
  }

  lemma EndAlone(s: State, success: bool)
    requires Alone(s) && s.lock.Encoding?
    ensures Alone(EndFallback(s, success))
  {
  }

  lemma StopAlone(s: State)
    requires Alone(s)
    ensures Alone(StopBatch(s))
  {
  }

  lemma PrefetchAlone(s: State, e: Event)
    requires Core(s) && Alone(s) && Enabled(s, e) && e.Prefetch?
    ensures Alone(Step(s, e))
  {
    hide EnsureBatch, Core, Alone;
    var start := FirstMissing(s, s.batches[e.b].first, s.batches[e.b].end);
    if start < s.count {
      EnsureAlone(s, start, None, e.recent);
    }
  }

  /** There stays one live batch, with the file it has under validation, if and only if no wait gives up. */
  lemma AloneIff(s: State, e: Event)
    requires Core(s) && Alone(s) && Enabled(s, e)
    ensures Alone(Step(s, e)) <==> Waited(s, e)
  {
    hide Core, Alone, StartFresh, EnsureBatch, PrefetchNext, StopBatch, StartBatch, TakeUp, Judge, DetachBatch;
    match e
    case Ensure(index, limit, recent) => EnsureAlone(s, index, limit, recent);
    case EnsureRest(_) | StopDone => RestAlone(s, e);
    case StartSlot(got) => StartAlone(s, got);
    case Stop => StopAlone(s);
    case Prefetch(_, _, _) => PrefetchAlone(s, e);
    case Verdict(b, valid) => VerdictAlone(s, b, valid);
    case Write(b, empty) => WriteAlone(s, b, empty);
    case Close(_) | Exit(_, _) | Timeout(_) | WatcherFails(_) | Check(_) | Reread(_, _) | Detach(_)
       | Release(_) => OwnAlone(s, e);
    case _ => OtherAlone(s, e);
  }

  // ---- sessions on demand ----

  /** Then every verdict is careful: the file is there, and nobody else touches it. */
  lemma AloneVerdict(s: State, b: nat, valid: bool)
    requires Core(s) && Alone(s) && Enabled(s, Verdict(b, valid))
    ensures Careful(s, Verdict(b, valid))
  {
    hide Slots, Ranges, Retries;
  }

  /** And a transcoded session on demand is careful exactly when a request that waited for the old batch finds its
      segment still missing, or backs off. */
  lemma TranscodedIsCareful(s: State, e: Event)
    requires Safe(s) && Alone(s) && !s.copy && !s.render && Enabled(s, e)
    ensures Careful(s, e) <==> (e.EnsureRest? ==> Ok(s, s.lock.index) ==> BacksOff(s, e.recent))
  {
    SafeParts(s);
    if e.Verdict? {
      AloneVerdict(s, e.b, e.valid);
    } else {
      NoFallbacks(s);
      hide Core, Secure, Ahead, CheckedBeside;
    }
  }

  lemma NoFallbacks(s: State)
    requires Core(s) && !s.copy && !s.render
    ensures s.looked == multiset{} && !s.lock.Encoding?
  {
    hide OneRunning, Ranges, Slots;
  }

  // No wait gives up, and no request starts a batch for what was published while it waited.
  ghost predicate Orderly(s: State, e: Event)
    requires Enabled(s, e)
  {
    Waited(s, e) && (e.EnsureRest? ==> Ok(s, s.lock.index) ==> BacksOff(s, e.recent))
  }

  ghost predicate OrderlyRun(s: State, es: seq<Event>) {
    es == [] ||
    (var t := Run(s, es[..|es| - 1]);
     OrderlyRun(s, es[..|es| - 1]) && (Enabled(t, es[|es| - 1]) ==> Orderly(t, es[|es| - 1])))
  }

  /** So a transcoded session on demand keeps every published segment, with its content, over every run in which no
      wait gives up and no request starts a batch for a segment that was published while it waited. */
  lemma {:induction false} TranscodedRunKeeps(s: State, es: seq<Event>)
    requires Safe(s) && Alone(s) && !s.copy && !s.render && OrderlyRun(s, es)
    ensures Safe(Run(s, es)) && Alone(Run(s, es)) && Keeps(s, Run(s, es)) && SameSession(s, Run(s, es))
  {
    hide Step, Enabled, Safe, Alone, Keeps, Orderly;
    if es == [] {
      KeepsSelf(s);
    } else {
      var n := |es| - 1;
      TranscodedRunKeeps(s, es[..n]);
      var t := Run(s, es[..n]);
      if Enabled(t, es[n]) {
        OrderlyStep(s, t, es[n]);
      }
    }
  }

  lemma OrderlyStep(s: State, t: State, e: Event)
    requires Safe(s) && Safe(t) && Alone(t) && Keeps(s, t) && !t.copy && !t.render && Enabled(t, e) && Orderly(t, e)
    ensures Safe(Step(t, e)) && Alone(Step(t, e)) && Keeps(s, Step(t, e)) && SameSession(t, Step(t, e))
  {
    hide Step, Enabled, Safe, Alone, Keeps, Careful, Waited;
    SafeParts(s);
    SafeParts(t);
    TranscodedIsCareful(t, e);
    StepSafeIff(t, e);
    AloneIff(t, e);
    StepSession(t, e);
    SafeParts(Step(t, e));
    KeepsTrans(s, t, Step(t, e));
  }

  // ---- render jobs ----

  // The driver waits for the watcher, too, before it does anything else.
  ghost predicate DriverWaits(s: State, e: Event) {
    && (e.Look? || e.FallbackBegin? ==> NoneLive(s))
    && (e.Ensure? ==> NoneLive(s) || Ok(s, e.index) || e.index in s.fallback)
  }

  // Where the driver stands between its tasks
  ghost predicate InTurn(s: State) {
    && !s.lock.Stopping?
    && (s.looked != multiset{} ==> s.lock.Free? && NoneLive(s) && forall i :: i in s.looked ==> HasFile(s, i))
    && (s.lock.Awaiting? || s.lock.Encoding? ==> NoneLive(s) && s.lock.index !in s.completed)
  }

  /** A render job's driver is careful as long as no wait gives up. */
  lemma RenderIsCareful(s: State, e: Event)
    requires Safe(s) && Alone(s) && InTurn(s) && Enabled(s, e)
    ensures Careful(s, e)
  {
    SafeParts(s);
    if e.Verdict? {
      AloneVerdict(s, e.b, e.valid);
    } else if e.Accept? || e.FallbackEnd? {
      hide Core;
    } else {
      hide Core, Secure, Ahead, CheckedBeside;
    }
  }

  /** The driver stays in turn if and only if its own wait does not give up, either. */
  lemma TurnIff(s: State, e: Event)
    requires Safe(s) && Alone(s) && s.render && InTurn(s) && Enabled(s, e) && Waited(s, e)
    ensures InTurn(Step(s, e)) <==> DriverWaits(s, e)
  {
    SafeParts(s);
    AloneNone(s);
    hide Core, Safe, StartFresh, EnsureBatch, PrefetchNext, StopBatch, StartBatch, TakeUp, Judge, DetachBatch;
    if e.Ensure? {
      EnsureTurn(s, e.index, e.limit, e.recent);
    } else if (e.Look? || e.FallbackBegin?) && !NoneLive(s) {
      HastyTurn(s, e);
    } else if s.looked != multiset{} || s.lock.Awaiting? || s.lock.Encoding? || e.Look? || e.FallbackBegin? {
      BusyTurn(s, e);
    } else {
      NextTurn(s, e);
    }
  }

  lemma HastyTurn(s: State, e: Event)
    requires Enabled(s, e) && (e.Look? || e.FallbackBegin?) && !NoneLive(s)
    ensures !InTurn(Step(s, e))
  {
    var t := Step(s, e);
    assert t.batches == s.batches;
    assert e.Look? ==> e.index in t.looked;
    SameNone(s, t);
    hide NoneLive;
  }

  // While the driver is at a fallback nothing else of the session moves.
  lemma BusyTurn(s: State, e: Event)
    requires Alone(s) && s.render && InTurn(s) && Enabled(s, e) && NoneLive(s) && !e.Ensure?
    requires Published(s)
    requires s.looked != multiset{} || s.lock.Awaiting? || s.lock.Encoding? || e.Look? || e.FallbackBegin?
    ensures InTurn(Step(s, e))
  {
    hide Alone, NoneLive, StartFresh, EnsureBatch, PrefetchNext, StartBatch, TakeUp, Judge, DetachBatch;
    if e.Look? || e.Accept? {
      LookTurn(s, e);
    } else if e.FallbackBegin? || e.FallbackSlot? || e.FallbackEnd? {
      FallbackTurn(s, e);
    } else {
      QuietTurn(s, e);
    }
  }

  lemma LookTurn(s: State, e: Event)
    requires s.render && InTurn(s) && Enabled(s, e) && NoneLive(s) && (e.Look? || e.Accept?)
    ensures InTurn(Step(s, e))
  {
    hide NoneLive;
    var t := Step(s, e);
    assert t.batches == s.batches && t.lock == s.lock && t.files == s.files && t.completed >= s.completed;
    assert forall i :: i in t.looked ==> i in s.looked || i == e.index;
    hide Step;
    SameNone(s, t);
  }

  lemma FallbackTurn(s: State, e: Event)
    requires s.render && InTurn(s) && Enabled(s, e) && NoneLive(s) && Published(s)
    requires e.FallbackBegin? || e.FallbackSlot? || e.FallbackEnd?
    ensures InTurn(Step(s, e))
  {
    hide NoneLive, StartFresh, EnsureBatch, PrefetchNext, StopBatch, StartBatch, TakeUp, Judge, DetachBatch;
    var t := Step(s, e);
    assert t.batches == s.batches;
    SameNone(s, t);
  }

  lemma SameNone(s: State, t: State)
    requires t.batches == s.batches
    ensures NoneLive(t) == NoneLive(s)
  {
  }

  lemma QuietTurn(s: State, e: Event)
    requires Alone(s) && s.render && InTurn(s) && Enabled(s, e) && NoneLive(s)
    requires s.looked != multiset{} || s.lock.Awaiting? || s.lock.Encoding?
    requires !e.Ensure? && !e.Look? && !e.Accept? && !e.FallbackBegin? && !e.FallbackSlot? && !e.FallbackEnd?
    ensures InTurn(Step(s, e))
  {
    hide Alone, StartFresh, EnsureBatch, PrefetchNext, StartBatch, TakeUp, Judge, DetachBatch;
  }

  lemma NextTurn(s: State, e: Event)
    requires s.render && InTurn(s) && Enabled(s, e) && !e.Ensure? && !e.Look? && !e.FallbackBegin?
    requires s.looked == multiset{} && !s.lock.Awaiting? && !s.lock.Encoding?
    ensures InTurn(Step(s, e))
  {
    hide StartFresh, EnsureBatch, PrefetchNext, Alone;
  }

  lemma EnsureTurn(s: State, index: nat, limit: Option<nat>, recent: bool)
    requires Core(s) && InTurn(s) && s.lock.Free? && s.looked == multiset{} && NoneRunning(s) && index < s.count
    requires NoneLive(s) <==> s.current.None?
    ensures InTurn(EnsureBatch(s, index, limit, recent)) <==> NoneLive(s) || Ok(s, index) || index in s.fallback
  {
    var t, end := StartFreshIs(s, index, limit, recent);
    hide StartFresh, Clean, NoneLive, Slots, Ranges, Retries;
  }

  ghost predicate WaitedRun(s: State, es: seq<Event>) {
    es == [] ||
    (var t := Run(s, es[..|es| - 1]);
     WaitedRun(s, es[..|es| - 1])
     && (Enabled(t, es[|es| - 1]) ==> Waited(t, es[|es| - 1]) && DriverWaits(t, es[|es| - 1])))
  }

  /** A render job, copied or transcoded, never loses or replaces a published segment in a run in which no wait gives
      up. */
  lemma {:induction false} RenderRunKeeps(s: State, es: seq<Event>)
    requires Safe(s) && Alone(s) && InTurn(s) && s.render && WaitedRun(s, es)
    ensures var t := Run(s, es); Safe(t) && Alone(t) && InTurn(t) && Keeps(s, t) && SameSession(s, t)
  {
    hide Step, Enabled, Safe, Alone, InTurn, Keeps, Waited, DriverWaits;
    if es == [] {
      KeepsSelf(s);
    } else {
      var n := |es| - 1;
      RenderRunKeeps(s, es[..n]);
      var t := Run(s, es[..n]);
      if Enabled(t, es[n]) {
        RenderStep(s, t, es[n]);
      }
    }
  }

  lemma RenderStep(s: State, t: State, e: Event)
    requires Safe(s) && Safe(t) && Alone(t) && InTurn(t) && Keeps(s, t) && t.render
    requires Enabled(t, e) && Waited(t, e) && DriverWaits(t, e)
    ensures Safe(Step(t, e)) && Alone(Step(t, e)) && InTurn(Step(t, e)) && Keeps(s, Step(t, e))
    ensures SameSession(t, Step(t, e))
  {
    hide Step, Enabled, Safe, Alone, InTurn, Keeps, Careful, Waited, DriverWaits;
    SafeParts(s);
    SafeParts(t);
    RenderIsCareful(t, e);
    StepSafeIff(t, e);
    AloneIff(t, e);
    TurnIff(t, e);
    StepSession(t, e);
    SafeParts(Step(t, e));
    KeepsTrans(s, t, Step(t, e));
  }

  lemma InitialAlone(count: nat, copy: bool, render: bool)
    ensures Alone(Initial(count, copy, render)) && InTurn(Initial(count, copy, render))
  {
  }
}
