/** What is published stays, with its content (python-worker/streamlift_worker/streaming.py and renders.py): the exact
    condition on every step, what a step that breaks it can lose, and the runs in which no step does. */
module SchedulerSafety {
  import opened Basics
  import opened Scheduler

  // ---- the invariant ----

  // Something that is running, or about to, will still write the segment.
  predicate Ahead(s: State, i: nat) {
    || (exists b :: 0 <= b < |s.batches| && s.batches[b].stage == Running
                    && s.batches[b].cursor <= i < s.batches[b].end)
    || (s.lock.Starting? && s.lock.first <= i < s.lock.end)
  }

  predicate UnderCheck(s: State, i: nat) {
    exists b :: 0 <= b < |s.batches| && s.batches[b].Checks(i)
  }

  // A watcher other than b has the segment under validation.
  predicate CheckedBeside(s: State, b: nat, i: nat) {
    exists c :: 0 <= c < |s.batches| && c != b && s.batches[c].Checks(i)
  }

  // A watcher may still remove the file.
  predicate Threatened(s: State, i: nat) {
    UnderCheck(s, i) && Removable(s, i)
  }

  ghost predicate Secure(s: State, i: nat) {
    !Ahead(s, i) && !Threatened(s, i)
  }

  ghost predicate AllSecure(s: State) {
    forall i :: i in s.completed ==> Secure(s, i)
  }

  ghost predicate Stamped(s: State) {
    forall i :: i in s.files ==> s.files[i].stamp < s.clock
  }

  ghost predicate Safe(s: State) {
    Core(s) && Stamped(s) && Published(s) && AllSecure(s)
  }

  // Whatever was published is still there, with the same content.
  ghost predicate Keeps(s: State, t: State) {
    && s.completed <= t.completed
    && forall i :: i in s.completed && i in s.files ==> i in t.files && t.files[i] == s.files[i]
  }

  // The verdict publishes the segment: it is valid, or the last version there will be.
  predicate Publishes(s: State, i: nat, valid: bool) {
    valid || !Removable(s, i)
  }

  /** The condition on a step. A verdict must not publish a segment whose file is gone, which a batch will still write,
      or which another watcher is validating as well. A file that was found must still be there when it is published,
      and no batch or watcher may still touch it; nor where a fallback is put, and nothing may have been published
      there meanwhile. And a request that waited for a watcher must not start a batch for a segment that was published
      while it waited. */
  ghost predicate Careful(s: State, e: Event)
    requires Enabled(s, e)
  {
    match e
    case Verdict(b, valid) =>
      var i := s.batches[b].checking.value;
      Publishes(s, i, valid) ==> HasFile(s, i) && !Ahead(s, i) && !CheckedBeside(s, b, i)
    case Accept(i) => HasFile(s, i) && Secure(s, i)
    case FallbackEnd(success) => success ==> Secure(s, s.lock.index) && s.lock.index !in s.completed
    case EnsureRest(recent) => Ok(s, s.lock.index) ==> BacksOff(s, recent)
    case _ => true
  }

  // ---- careful steps keep it ----

  lemma KeepsSelf(s: State)
    ensures Keeps(s, s)
  {
  }

  lemma KeepsTrans(s: State, t: State, u: State)
    requires Published(s) && Published(t) && Keeps(s, t) && Keeps(t, u)
    ensures Keeps(s, u)
  {
  }

  // Safe, apart from what every run keeps
  ghost predicate Sure(s: State) {
    Stamped(s) && Published(s) && AllSecure(s)
  }

  lemma MovesAhead(s: State, b: nat, x: Batch, t: State, i: nat)
    requires Moves(s, b, x, t) && (t.lock.Starting? ==> t.lock == s.lock)
    requires x.stage == Running ==> x.cursor >= s.batches[b].cursor
    ensures Ahead(t, i) ==> Ahead(s, i)
  {
    if c: nat :| c < |t.batches| && t.batches[c].stage == Running && t.batches[c].cursor <= i < t.batches[c].end {
      assert s.batches[c].stage == Running && s.batches[c].cursor <= i;
    }
  }

  lemma MovesCheck(s: State, b: nat, x: Batch, t: State, i: nat)
    requires Moves(s, b, x, t) && (x.Checks(i) ==> s.batches[b].Checks(i))
    ensures UnderCheck(t, i) ==> UnderCheck(s, i)
  {
    if c: nat :| c < |t.batches| && t.batches[c].Checks(i) {
      assert s.batches[c].Checks(i);
    }
  }

  // A batch that stops running, reads on, or is judged writes nothing more than before.
  lemma MovesSure(s: State, b: nat, x: Batch, t: State)
    requires Sure(s) && Moves(s, b, x, t) && (t.lock.Starting? ==> t.lock == s.lock)
    requires x.stage == Running ==> x.cursor >= s.batches[b].cursor
    requires forall i :: i in s.completed && x.Checks(i) ==> s.batches[b].Checks(i)
    ensures Sure(t) && Keeps(s, t)
  {
    hide Ahead, UnderCheck;
    forall i | i in t.completed
      ensures Secure(t, i)
    {
      assert Secure(s, i);
      MovesAhead(s, b, x, t, i);
      MovesCheck(s, b, x, t, i);
    }
  }

  // ---- one batch at a time ----

  lemma OwnSure(s: State, e: Event)
    requires Safe(s) && Enabled(s, e) && OwnEvent(e)
    ensures Sure(Step(s, e)) && Keeps(s, Step(s, e))
  {
    hide Core, Sure, Keeps, Moves, Listed, Safe;
    SafeParts(s);
    OwnMoves(s, e);
    OwnShape(s, e);
    MovesSure(s, e.b, Step(s, e).batches[e.b], Step(s, e));
  }

  lemma SafeParts(s: State)
    requires Safe(s)
    ensures Core(s) && Sure(s) && Published(s)
  {
  }

  lemma OwnShape(s: State, e: Event)
    requires Enabled(s, e) && OwnEvent(e)
    ensures e.b < |s.batches| && e.b < |Step(s, e).batches| && Step(s, e).lock == s.lock
    ensures var x, y := s.batches[e.b], Step(s, e).batches[e.b];
            && (y.stage == Running ==> y.cursor >= x.cursor)
            && (forall i :: i in s.completed && y.Checks(i) ==> x.Checks(i))
  {
    hide Listed;
  }

  lemma KilledSure(s: State, lock: Lock)
    requires Safe(s) && s.current.Some? && s.lock.Free?
    requires lock == Halting(s.current.value) || (lock.Stopping? && lock.b == s.current.value && lock.index < s.count)
    ensures s.current.value < |s.batches|
    ensures var t := SetBatch(s, s.current.value, Killed(s.batches[s.current.value])).(lock := lock);
            Sure(t) && Keeps(s, t)
  {
    hide Core, Sure, Keeps, Moves, Safe;
    SafeParts(s);
    KilledMoves(s, lock);
    var b := s.current.value;
    var x := Killed(s.batches[b]);
    MovesSure(s, b, x, SetBatch(s, b, x).(lock := lock));
  }

  // ---- starting ----

  // What is written next is not published.
  lemma StartingSure(s: State, first: nat, end: nat)
    requires Sure(s) && s.lock.Free?
    ensures var t := s.(lock := Starting(first, end));
            Keeps(s, t) && (Sure(t) <==> forall i :: first <= i < end ==> i !in s.completed)
  {
    var t := s.(lock := Starting(first, end));
    forall i | i in s.completed
      ensures Secure(t, i) <==> !(first <= i < end)
    {
      assert Secure(s, i);
      OnlyLock(s, t, i);
    }
  }

  lemma OnlyLock(s: State, t: State, i: nat)
    requires t == s.(lock := t.lock, current := t.current, free := t.free)
    ensures UnderCheck(t, i) == UnderCheck(s, i) && Threatened(t, i) == Threatened(s, i)
    ensures !s.lock.Starting? && !t.lock.Starting? ==> Ahead(t, i) == Ahead(s, i)
    ensures s.lock.Free? && t.lock.Starting? ==> Ahead(t, i) == (Ahead(s, i) || t.lock.first <= i < t.lock.end)
    ensures s.lock.Starting? && t.lock.Free? ==> Ahead(t, i) ==> Ahead(s, i)
  {
  }

  lemma CleanSure(s: State, t: State)
    requires Sure(s) && t == Clean(s).(batchFailures := t.batchFailures)
    ensures Sure(t) && Keeps(s, t) && t.completed == s.completed
  {
    forall i | i in t.completed
      ensures Secure(t, i)
    {
      assert Secure(s, i);
      assert Ahead(t, i) ==> Ahead(s, i);
      assert UnderCheck(t, i) ==> UnderCheck(s, i);
    }
  }

  /** Starting afresh forgets nothing that was published. Whatever it starts only covers unpublished segments, unless
      the requested segment itself is published. */
  lemma StartFreshSure(s: State, index: nat, limit: Option<nat>, recent: bool)
    requires Sure(s) && s.lock.Free? && index < s.count
    ensures var t := StartFresh(s, index, limit, recent);
            Keeps(s, t) && t.completed == s.completed && (Sure(t) <==> (Ok(s, index) ==> BacksOff(s, recent)))
  {
    var t, end := StartFreshPublished(s, index, limit, recent);
    assert Ok(s, index) <==> index in s.completed;
    hide StartFresh, Sure, Keeps, Clean, Ok;
    CleanSure(s, t);
    StartingSure(t, index, end);
    KeepsTransSure(s, t, t.(lock := Starting(index, end)));
  }

  lemma KeepsTransSure(s: State, t: State, u: State)
    requires Sure(s) && Sure(t) && Keeps(s, t) && Keeps(t, u)
    ensures Keeps(s, u)
  {
    KeepsTrans(s, t, u);
  }

  /** Which batch that is: it starts at the requested segment, stops at the first published one after it or at its
      full length, and covers every segment in between. */
  lemma NewBatchIs(s: State, index: nat, limit: Option<nat>, recent: bool, got: bool)
    requires Published(s) && index < s.count && s.lock.Free?
    ensures var t := StartFresh(s, index, limit, recent);
            var wide := Min(index + (if limit.None? then HLS_BATCH_SEGMENTS else Max(1, limit.value)), s.count);
            if s.batchFailures >= 3 && recent then t.lock.Free? && t.batches == s.batches
            else
              && t.lock.Starting? && t.lock.first == index < t.lock.end <= wide
              && (forall i :: index < i < t.lock.end ==> i !in s.completed)
              && (t.lock.end < wide ==> t.lock.end in s.completed)
              && var u := StartBatch(t, got);
                 if got && s.free > 0 then
                   && u.batches == s.batches + [NewBatch(index, t.lock.end)] && u.current == Some(|s.batches|)
                   && u.free == s.free - 1
                 else u.batches == s.batches && u.free == s.free
  {
    var t, end := StartFreshPublished(s, index, limit, recent);
    hide StartFresh, FirstCompleted;
  }

  lemma StartBatchSure(s: State, got: bool)
    requires Safe(s) && s.lock.Starting?
    ensures Sure(StartBatch(s, got)) && Keeps(s, StartBatch(s, got))
  {
    var t := StartBatch(s, got);
    forall i | i in t.completed
      ensures Secure(t, i)
    {
      assert Secure(s, i);
      StartBatchAhead(s, got, i);
    }
  }

  lemma StartBatchAhead(s: State, got: bool, i: nat)
    requires s.lock.Starting?
    ensures var t := StartBatch(s, got);
            (Ahead(t, i) ==> Ahead(s, i)) && (Threatened(t, i) ==> Threatened(s, i))
  {
    var t := StartBatch(s, got);
    if c: nat :| c < |t.batches| && t.batches[c].stage == Running && t.batches[c].cursor <= i < t.batches[c].end {
      assert c < |s.batches| ==> s.batches[c] == t.batches[c];
    }
    if c: nat :| c < |t.batches| && t.batches[c].Checks(i) {
      assert c < |s.batches| && s.batches[c].Checks(i);
    }
  }

  lemma EnsureSure(s: State, index: nat, limit: Option<nat>, recent: bool)
    requires Safe(s) && s.lock.Free? && index < s.count
    ensures var t := EnsureBatch(s, index, limit, recent); Sure(t) && Keeps(s, t)
  {
    hide StartFresh, Sure, Keeps, Safe;
    SafeParts(s);
    KeepsSelf(s);
    if s.current.Some? {
      KilledSure(s, Stopping(s.current.value, index, limit));
    } else if !Ok(s, index) {
      StartFreshSure(s, index, limit, recent);
    }
  }

  lemma StopSure(s: State)
    requires Safe(s) && s.lock.Free?
    ensures Sure(StopBatch(s)) && Keeps(s, StopBatch(s))
  {
    hide Sure, Keeps, Safe;
    SafeParts(s);
    KeepsSelf(s);
    if s.current.Some? {
      KilledSure(s, Halting(s.current.value));
    }
  }

  lemma AbandonSure(s: State)
    requires Sure(s) && (s.lock.Stopping? || s.lock.Halting?)
    ensures Sure(Abandon(s)) && Keeps(s, Abandon(s))
  {
    forall i | i in s.completed
      ensures Secure(Abandon(s), i)
    {
      assert Secure(s, i);
      OnlyLock(s, Abandon(s), i);
    }
  }

  // The wait is over, and the request goes on.
  lemma RestSure(s: State, recent: bool)
    requires Safe(s) && Enabled(s, EnsureRest(recent))
    ensures var t := Step(s, EnsureRest(recent));
            Keeps(s, t) && (Sure(t) <==> Careful(s, EnsureRest(recent)))
  {
    LockedIndex(s);
    hide StartFresh, Sure, Keeps, Safe;
    SafeParts(s);
    AbandonSure(s);
    StartFreshSure(Abandon(s), s.lock.index, s.lock.limit, recent);
    KeepsTransSure(s, Abandon(s), StartFresh(Abandon(s), s.lock.index, s.lock.limit, recent));
  }

  // ---- publishing and removing ----

  lemma WriteSure(s: State, b: nat, empty: bool)
    requires Safe(s) && Enabled(s, Write(b, empty))
    ensures var t := Step(s, Write(b, empty)); Sure(t) && Keeps(s, t)
  {
    var t, c := Step(s, Write(b, empty)), s.batches[b].cursor;
    assert Ahead(s, c);
    assert c in s.completed ==> Secure(s, c);
    forall i | i in t.completed
      ensures Secure(t, i)
    {
      assert Secure(s, i);
      SameBatches(s, t, i);
    }
    hide Ahead, UnderCheck, Core;
  }

  // Files and claims do not change what is ahead or under validation.
  lemma SameBatches(s: State, t: State, i: nat)
    requires t.batches == s.batches && (t.lock == s.lock || (!t.lock.Starting? && !s.lock.Starting?))
    ensures Ahead(t, i) == Ahead(s, i) && UnderCheck(t, i) == UnderCheck(s, i)
    ensures forall b :: CheckedBeside(t, b, i) == CheckedBeside(s, b, i)
  {
  }

  // Adding a segment to the published ones, with its file as it is or put there anew
  lemma AddSure(s: State, t: State, i: nat)
    requires Sure(s) && i < s.count
    requires t == s.(files := t.files, completed := s.completed + {i}, looked := t.looked, lock := t.lock,
                     free := t.free, clock := t.clock)
    requires t.lock == s.lock || (!t.lock.Starting? && !s.lock.Starting?)
    requires t.clock >= s.clock && (t.files == s.files || t.files == s.files[i := File(s.clock, false)])
    requires t.files != s.files ==> t.clock > s.clock
    ensures Sure(t) <==> HasFile(t, i) && Secure(s, i)
    ensures Keeps(s, t) <==> (i in s.completed && i in s.files ==> t.files[i] == s.files[i])
  {
    forall k: nat
      ensures Secure(t, k) <==> Secure(s, k)
    {
      SameBatches(s, t, k);
    }
    hide Secure;
  }

  lemma AcceptSure(s: State, i: nat)
    requires Safe(s) && Enabled(s, Accept(i))
    ensures var t := Step(s, Accept(i)); Keeps(s, t) && (Sure(t) <==> Careful(s, Accept(i)))
  {
    LookedIn(s, i);
    hide Core, Secure;
    AddSure(s, Step(s, Accept(i)), i);
  }

  lemma LookedIn(s: State, i: nat)
    requires Core(s) && i in s.looked
    ensures i < s.count
  {
    hide OneRunning, Ranges, Slots;
  }

  lemma FallbackEndSure(s: State, success: bool)
    requires Safe(s) && Enabled(s, FallbackEnd(success))
    ensures var t := Step(s, FallbackEnd(success));
            (Sure(t) && Keeps(s, t)) <==> Careful(s, FallbackEnd(success))
  {
    EncodingIn(s);
    hide Core;
    var t, i := Step(s, FallbackEnd(success)), s.lock.index;
    if success {
      AddSure(s, t, i);
      assert i in s.completed ==> i in s.files && t.files[i].stamp > s.files[i].stamp;
    } else {
      forall k: nat
        ensures Secure(t, k) <==> Secure(s, k)
      {
        SameBatches(s, t, k);
      }
      hide Secure;
    }
  }

  lemma EncodingIn(s: State)
    requires Core(s) && s.lock.Encoding?
    ensures s.lock.index < s.count
  {
  }

  // A verdict that removes the file: the segment was not published.
  lemma RemovedSure(s: State, b: nat, valid: bool)
    requires Safe(s) && Enabled(s, Verdict(b, valid)) && !Publishes(s, s.batches[b].checking.value, valid)
    ensures var t := Step(s, Verdict(b, valid)); Sure(t) && Keeps(s, t)
  {
    var i, t := s.batches[b].checking.value, Step(s, Verdict(b, valid));
    assert s.batches[b].Checks(i);
    assert i in s.completed ==> Secure(s, i);
    forall k | k in t.completed
      ensures Secure(t, k)
    {
      assert Secure(s, k);
      VerdictBatches(s, b, valid, k);
    }
    hide Core, Secure;
  }

  // What is under validation after a verdict, and how many versions there have been
  lemma VerdictBatches(s: State, b: nat, valid: bool, k: nat)
    requires Enabled(s, Verdict(b, valid))
    ensures var i := s.batches[b].checking.value; var t := Step(s, Verdict(b, valid));
            && Ahead(t, k) == Ahead(s, k)
            && UnderCheck(t, k) == CheckedBeside(s, b, k)
            && (k != i ==> Removable(t, k) == Removable(s, k))
            && (Publishes(s, i, valid) ==> Removable(t, i))
  {
    var x := s.batches[b].(checking := None);
    var u := SetBatch(s, b, x);
    assert Ahead(u, k) == Ahead(s, k) by { AheadSet(s, b, x, k); }
    assert UnderCheck(u, k) == CheckedBeside(s, b, k) by { CheckSet(s, b, x, k); }
    var t := Step(s, Verdict(b, valid));
    SameBatches(u, t, k);
  }

  lemma AheadSet(s: State, b: nat, x: Batch, k: nat)
    requires b < |s.batches| && x == s.batches[b].(checking := None)
    ensures Ahead(SetBatch(s, b, x), k) == Ahead(s, k)
  {
    var u := SetBatch(s, b, x);
    if c: nat :| c < |s.batches| && s.batches[c].stage == Running && s.batches[c].cursor <= k < s.batches[c].end {
      assert u.batches[c].stage == Running && u.batches[c].cursor <= k < u.batches[c].end;
    }
    if c: nat :| c < |u.batches| && u.batches[c].stage == Running && u.batches[c].cursor <= k < u.batches[c].end {
      assert s.batches[c].stage == Running && s.batches[c].cursor <= k < s.batches[c].end;
    }
  }

  lemma CheckSet(s: State, b: nat, x: Batch, k: nat)
    requires b < |s.batches| && x == s.batches[b].(checking := None)
    ensures UnderCheck(SetBatch(s, b, x), k) == CheckedBeside(s, b, k)
  {
    var u := SetBatch(s, b, x);
    if c: nat :| c < |s.batches| && c != b && s.batches[c].Checks(k) {
      assert u.batches[c].Checks(k);
    }
    if c: nat :| c < |u.batches| && u.batches[c].Checks(k) {
      assert c != b && s.batches[c].Checks(k);
    }
  }

  lemma PublishedSure(s: State, b: nat, valid: bool)
    requires Safe(s) && Enabled(s, Verdict(b, valid)) && Publishes(s, s.batches[b].checking.value, valid)
    ensures var t := Step(s, Verdict(b, valid)); Keeps(s, t) && (Sure(t) <==> Careful(s, Verdict(b, valid)))
  {
    var i, t := s.batches[b].checking.value, Step(s, Verdict(b, valid));
    CheckingIn(s, b);
    assert t.files == s.files && t.completed == s.completed + {i} && t.clock == s.clock && t.count == s.count;
    forall k: nat | k in s.completed && k != i
      ensures Secure(t, k)
    {
      assert Secure(s, k);
      VerdictBatches(s, b, valid, k);
      assert CheckedBeside(s, b, k) ==> UnderCheck(s, k);
    }
    VerdictBatches(s, b, valid, i);
    assert Secure(t, i) <==> !Ahead(s, i) && !CheckedBeside(s, b, i);
    hide Core, Secure, Ahead, CheckedBeside, UnderCheck, Step;
    assert Published(t) <==> HasFile(s, i);
    assert AllSecure(t) <==> Secure(t, i);
  }

  lemma CheckingIn(s: State, b: nat)
    requires Core(s) && b < |s.batches| && s.batches[b].checking.Some?
    ensures s.batches[b].checking.value < s.count
  {
    assert InRange(s.batches[b], s.count);
  }

  lemma VerdictSure(s: State, b: nat, valid: bool)
    requires Safe(s) && Enabled(s, Verdict(b, valid))
    ensures var t := Step(s, Verdict(b, valid)); Keeps(s, t) && (Sure(t) <==> Careful(s, Verdict(b, valid)))
  {
    hide Safe, Sure, Keeps, Step;
    if Publishes(s, s.batches[b].checking.value, valid) {
      PublishedSure(s, b, valid);
    } else {
      RemovedSure(s, b, valid);
    }
  }

  lemma PrefetchSure(s: State, e: Event)
    requires Safe(s) && Enabled(s, e) && e.Prefetch?
    ensures Sure(Step(s, e)) && Keeps(s, Step(s, e))
  {
    hide EnsureBatch, Sure, Keeps, Safe;
    SafeParts(s);
    KeepsSelf(s);
    var start := FirstMissing(s, s.batches[e.b].first, s.batches[e.b].end);
    if start < s.count {
      EnsureSure(s, start, None, e.recent);
    }
  }

  // Steps that change neither files nor claims nor batches
  lemma IdleSure(s: State, e: Event)
    requires Safe(s) && Enabled(s, e)
    requires e.Look? || e.FallbackBegin? || e.FallbackSlot? || e.Request? || e.OtherAcquire? || e.OtherRelease?
    ensures Sure(Step(s, e)) && Keeps(s, Step(s, e))
  {
    var t := Step(s, e);
    assert t == s.(looked := t.looked, lock := t.lock, free := t.free, others := t.others, playhead := t.playhead)
           && (t.lock == s.lock || (!t.lock.Starting? && !s.lock.Starting?));
    hide Core, Step, Enabled;
    SameSure(s, t);
  }

  lemma SameSure(s: State, t: State)
    requires Sure(s) && (t.lock == s.lock || (!t.lock.Starting? && !s.lock.Starting?))
    requires t == s.(looked := t.looked, lock := t.lock, free := t.free, others := t.others, playhead := t.playhead)
    ensures Sure(t) && Keeps(s, t)
  {
    hide Ahead, UnderCheck;
    forall i | i in t.completed
      ensures Secure(t, i)
    {
      assert Secure(s, i);
      SameBatches(s, t, i);
    }
  }

  // ---- the exact condition ----

  /** A step keeps the invariant and every published segment, with its content, if and only if it is careful. */
  lemma StepSafeIff(s: State, e: Event)
    requires Safe(s) && Enabled(s, e)
    ensures Careful(s, e) <==> Safe(Step(s, e)) && Keeps(s, Step(s, e))
  {
    hide Safe, Step, Sure, Keeps, Core, Enabled;
    SafeParts(s);
    StepCore(s, e);
    SafeIs(Step(s, e));
    StepSureIff(s, e);
  }

  lemma SafeIs(s: State)
    ensures Safe(s) <==> Core(s) && Sure(s)
  {
  }

  lemma StepSureIff(s: State, e: Event)
    requires Safe(s) && Enabled(s, e)
    ensures Careful(s, e) <==> Sure(Step(s, e)) && Keeps(s, Step(s, e))
  {
    hide Safe, Sure, Keeps, Core, StartFresh, EnsureBatch, StopBatch, StartBatch, PrefetchNext, TakeUp, Judge;
    hide Secure, Ahead, CheckedBeside;
    match e
    case Ensure(index, limit, recent) => EnsureSure(s, index, limit, recent);
    case EnsureRest(recent) => RestSure(s, recent);
    case StartSlot(got) => StartBatchSure(s, got);
    case Stop => StopSure(s);
    case StopDone =>
      SafeParts(s);
      AbandonSure(s);
    case Prefetch(_, _, _) => PrefetchSure(s, e);
    case Write(b, empty) => WriteSure(s, b, empty);
    case Verdict(b, valid) => VerdictSure(s, b, valid);
    case Accept(i) => AcceptSure(s, i);
    case FallbackEnd(success) => FallbackEndSure(s, success);
    case Close(_) | Exit(_, _) | Timeout(_) | WatcherFails(_) | Check(_) | Reread(_, _) | Detach(_) | Release(_) =>
      OwnSure(s, e);
    case _ => IdleSure(s, e);
  }

  ghost predicate CarefulRun(s: State, es: seq<Event>) {
    es == [] ||
    (var t := Run(s, es[..|es| - 1]);
     CarefulRun(s, es[..|es| - 1]) && (Enabled(t, es[|es| - 1]) ==> Careful(t, es[|es| - 1])))
  }

  lemma InitialSafe(count: nat, copy: bool, render: bool)
    ensures Safe(Initial(count, copy, render))
  {
  }

  /** From any safe state, a careful run keeps every published segment, with its content. */
  lemma {:induction false} RunKeeps(s: State, es: seq<Event>)
    requires Safe(s) && CarefulRun(s, es)
    ensures Safe(Run(s, es)) && Keeps(s, Run(s, es))
  {
    hide Step, Enabled, Safe, Careful, Keeps, Published;
    if es == [] {
      KeepsSelf(s);
    } else {
      var n := |es| - 1;
      RunKeeps(s, es[..n]);
      var t := Run(s, es[..n]);
      if Enabled(t, es[n]) {
        StepSafeIff(t, es[n]);
        SafeParts(s);
        SafeParts(t);
        KeepsTrans(s, t, Step(t, es[n]));
      }
    }
  }

  // ---- what a step that is not careful can lose ----

  // The batch closes its segments one by one up to i, and writes it.
  ghost function UpTo(b: nat, n: nat): seq<Event> {
    if n == 0 then [Write(b, false)] else [Close(b)] + UpTo(b, n - 1)
  }

  lemma RunCons(s: State, e: Event, es: seq<Event>)
    requires Enabled(s, e)
    ensures Run(s, [e] + es) == Run(Step(s, e), es)
    decreases |es|
  {
    hide Step, Enabled;
    if es == [] {
      assert [e] + es == [e];
      assert Run(s, []) == s;
      RunSnoc(s, [], e);
    } else {
      var n := |es| - 1;
      RunCons(s, e, es[..n]);
      assert ([e] + es)[..n + 1] == [e] + es[..n];
      assert ([e] + es)[|[e] + es| - 1] == es[n];
    }
  }

  // The file there was is not there any more.
  ghost predicate Gone(s: State, t: State, i: nat) {
    i in s.files && (i in t.files ==> t.files[i] != s.files[i])
  }

  lemma GoneLoses(s: State, t: State, i: nat)
    requires i in s.completed && Gone(s, t, i)
    ensures !Keeps(s, t)
  {
  }

  lemma WriteReplaces(s: State, b: nat)
    requires Enabled(s, Write(b, false)) && Stamped(s) && s.batches[b].cursor in s.files
    ensures Gone(s, Step(s, Write(b, false)), s.batches[b].cursor)
  {
  }

  lemma CloseOnly(s: State, b: nat)
    requires Enabled(s, Close(b))
    ensures var t := Step(s, Close(b));
            && t == s.(batches := t.batches) && |t.batches| == |s.batches|
            && t.batches[b] == s.batches[b].(cursor := s.batches[b].cursor + 1)
  {
  }

  lemma {:induction false} AheadReplaced(s: State, b: nat, i: nat)
    requires Stamped(s) && i in s.files && b < |s.batches|
    requires s.batches[b].stage == Running && s.batches[b].cursor <= i < s.batches[b].end
    ensures Gone(s, Run(s, UpTo(b, i - s.batches[b].cursor)), i)
    decreases i - s.batches[b].cursor
  {
    hide Step, Run;
    var n := i - s.batches[b].cursor;
    if n == 0 {
      WriteReplaces(s, b);
      RunCons(s, Write(b, false), []);
      assert [Write(b, false)] + [] == UpTo(b, 0);
      RunNothing(Step(s, Write(b, false)));
    } else {
      CloseOnly(s, b);
      RunCons(s, Close(b), UpTo(b, n - 1));
      AheadReplaced(Step(s, Close(b)), b, i);
    }
  }

  lemma RunNothing(s: State)
    ensures Run(s, []) == s
  {
  }

  lemma {:induction false} RunJoin(s: State, a: seq<Event>, b: seq<Event>)
    ensures Run(s, a + b) == Run(Run(s, a), b)
  {
    hide Step, Enabled;
    if b == [] {
      assert a + b == a;
    } else {
      var n := |b| - 1;
      RunJoin(s, a, b[..n]);
      assert (a + b)[..|a + b| - 1] == a + b[..n];
    }
  }

  // The batch's watcher finishes, and the slot comes back; no file is touched meanwhile.
  ghost predicate LetGo(s: State, t: State) {
    t.files == s.files && t.clock == s.clock && t.lock == s.lock && t.fallback == s.fallback && t.free > 0
  }

  function Remaining(x: Batch): nat {
    (if x.Live() && x.checking.Some? then 4 else 0)
    + match x.stage case Running => 3 case Exited => 2 case Detached => 1 case Released => 0
  }

  lemma NextToGo(s: State, b: nat) returns (e: Event)
    requires b < |s.batches| && s.batches[b].stage != Released
    ensures Enabled(s, e)
    ensures var t := Step(s, e);
            && t.files == s.files && t.clock == s.clock && t.lock == s.lock && t.fallback == s.fallback
            && |t.batches| == |s.batches| && Remaining(t.batches[b]) < Remaining(s.batches[b])
            && (t.batches[b].stage == Released ==> t.free > 0)
  {
    var x := s.batches[b];
    e := if x.Live() && x.checking.Some? then Verdict(b, true)
         else if x.stage == Running then Exit(b, true)
         else if x.stage == Exited then Detach(b) else Release(b);
    hide Listed;
  }

  lemma {:induction false} WatcherGoes(s: State, b: nat) returns (es: seq<Event>)
    requires b < |s.batches| && s.batches[b].stage != Released
    ensures LetGo(s, Run(s, es))
    decreases Remaining(s.batches[b])
  {
    hide Step, Enabled, Run, Remaining;
    var e := NextToGo(s, b);
    var t, rest := Step(s, e), [];
    RunNothing(t);
    if t.batches[b].stage != Released {
      rest := WatcherGoes(t, b);
    }
    RunCons(s, e, rest);
    es := [e] + rest;
  }

  lemma {:induction false} SomeHeld(batches: seq<Batch>) returns (b: nat)
    requires Held(batches) > 0
    ensures b < |batches| && batches[b].stage != Released
  {
    b := |batches| - 1;
    if batches[b].stage == Released {
      b := SomeHeld(batches[..b]);
    }
  }

  // Whoever waits for a slot can still get one.
  lemma SlotComes(s: State) returns (es: seq<Event>)
    requires Core(s) && !s.lock.Encoding?
    ensures LetGo(s, Run(s, es))
  {
    hide OneRunning, Ranges, Retries, Held;
    RunNothing(s);
    es := [];
    if s.free == 0 {
      if s.others > 0 {
        RunNothing(Step(s, OtherRelease));
        RunCons(s, OtherRelease, []);
        es := [OtherRelease] + [];
      } else {
        var b := SomeHeld(s.batches);
        es := WatcherGoes(s, b);
      }
    }
  }

  lemma ThreatRemoves(s: State, b: nat, i: nat)
    requires b < |s.batches| && s.batches[b].Checks(i) && Removable(s, i) && i in s.files
    ensures Enabled(s, Verdict(b, false)) && Gone(s, Step(s, Verdict(b, false)), i)
  {
  }

  lemma ThreatLoses(s: State, i: nat) returns (es: seq<Event>)
    requires i in s.files && Threatened(s, i)
    ensures Gone(s, Run(s, es), i)
  {
    hide Step, Run;
    var b: nat :| b < |s.batches| && s.batches[b].Checks(i);
    ThreatRemoves(s, b, i);
    RunNothing(Step(s, Verdict(b, false)));
    RunCons(s, Verdict(b, false), []);
    es := [Verdict(b, false)] + [];
  }

  lemma StartingReplaces(s: State, i: nat) returns (es: seq<Event>)
    requires Stamped(s) && i in s.files && s.lock.Starting? && s.lock.first <= i < s.lock.end && s.free > 0
    ensures Gone(s, Run(s, es), i)
  {
    var t := Step(s, StartSlot(true));
    assert t.files == s.files && t.clock == s.clock && |t.batches| == |s.batches| + 1;
    assert t.batches[|s.batches|] == NewBatch(s.lock.first, s.lock.end);
    hide Step, Run;
    AheadReplaced(t, |s.batches|, i);
    es := UpTo(|s.batches|, i - s.lock.first);
    RunCons(s, StartSlot(true), es);
    es := [StartSlot(true)] + es;
  }

  lemma StartingLoses(s: State, i: nat) returns (es: seq<Event>)
    requires Core(s) && Stamped(s) && i in s.files && s.lock.Starting? && s.lock.first <= i < s.lock.end
    ensures Gone(s, Run(s, es), i)
  {
    hide Run, Core;
    var before := SlotComes(s);
    es := StartingReplaces(Run(s, before), i);
    RunJoin(s, before, es);
    es := before + es;
  }

  // A published segment that is not secure can be lost.
  lemma InsecureLoses(s: State, i: nat) returns (es: seq<Event>)
    requires Core(s) && Stamped(s) && i in s.completed && i in s.files && !Secure(s, i)
    ensures !Keeps(s, Run(s, es))
  {
    hide Core, Keeps, Run, UpTo, UnderCheck, Gone;
    if Threatened(s, i) {
      es := ThreatLoses(s, i);
    } else if s.lock.Starting? && s.lock.first <= i < s.lock.end {
      es := StartingLoses(s, i);
    } else {
      var b: nat :| b < |s.batches| && s.batches[b].stage == Running && s.batches[b].cursor <= i < s.batches[b].end;
      AheadReplaced(s, b, i);
      es := UpTo(b, i - s.batches[b].cursor);
    }
    GoneLoses(s, Run(s, es), i);
  }

  /** The converse: a step that is not careful publishes a segment without its file, or replaces or loses a published
      one at once, or leaves one that some continuation replaces or loses. So no weaker condition would do. */
  lemma CarelessLoses(s: State, e: Event) returns (es: seq<Event>)
    requires Safe(s) && Enabled(s, e) && !Careful(s, e)
    ensures var t := Step(s, e); !Keeps(s, t) || !Published(t) || !Keeps(t, Run(t, es))
  {
    var t := Step(s, e);
    es := [];
    StepSafeIff(s, e);
    StepCore(s, e);
    if Keeps(s, t) && Published(t) {
      CarelessShape(s, e);
      hide Safe, Step, Careful, Secure, Keeps;
      SafeIs(t);
      SureIs(t);
      var i :| i in t.completed && !Secure(t, i);
      es := InsecureLoses(t, i);
    }
  }

  lemma SureIs(s: State)
    ensures Sure(s) <==> Stamped(s) && Published(s) && forall i :: i in s.completed ==> Secure(s, i)
  {
  }

  lemma CarelessShape(s: State, e: Event)
    requires Safe(s) && Enabled(s, e) && !Careful(s, e)
    ensures Stamped(Step(s, e))
  {
    if e.EnsureRest? {
      LockedIndex(s);
      var t, end := StartFreshIs(Abandon(s), s.lock.index, s.lock.limit, e.recent);
    }
    hide Core, AllSecure, Published, Secure, StartFresh;
  }

  /** Where a request starts a batch for a segment that was published while it waited, the batch's first write replaces
      the segment. */
  lemma RestartReplaces(s: State, recent: bool, empty: bool)
    requires Safe(s) && Enabled(s, EnsureRest(recent)) && Ok(s, s.lock.index) && !BacksOff(s, recent) && s.free > 0
    ensures var t := Step(s, EnsureRest(recent));
            && t.lock.Starting? && var u := Step(t, StartSlot(true));
               Enabled(u, Write(|s.batches|, empty)) && !Keeps(s, Step(u, Write(|s.batches|, empty)))
  {
    LockedIndex(s);
    SafeParts(s);
    var t, end := StartFreshPublished(Abandon(s), s.lock.index, s.lock.limit, recent);
    hide StartFresh, Core, Sure, Safe;
  }

  /** A fallback result published while a batch is about to write the same segment is replaced by that batch. */
  lemma FallbackReplaced(s: State, b: nat, empty: bool)
    requires Safe(s) && Enabled(s, FallbackEnd(true)) && s.lock.index !in s.completed
    requires Enabled(s, Write(b, empty)) && s.batches[b].cursor == s.lock.index
    ensures !Careful(s, FallbackEnd(true))
    ensures var t := Step(s, FallbackEnd(true));
            Ok(t, s.lock.index) && Enabled(t, Write(b, empty)) && !Keeps(t, Step(t, Write(b, empty)))
  {
    assert Ahead(s, s.lock.index);
    hide Core;
  }
}
