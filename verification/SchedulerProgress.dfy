/** That a session on demand gets on (python-worker/streamlift_worker/streaming.py): wherever it stands, every segment
    can still be published. */
module SchedulerProgress {
  import opened Basics
  import opened Scheduler
  import opened SchedulerSafety

  ghost predicate Unlocked(s: State, t: State) {
    Core(t) && SameSession(s, t) && t.lock.Free?
  }

  lemma Released(s: State, e: Event)
    requires Core(s) && Enabled(s, e) && Step(s, e).lock.Free?
    ensures Unlocked(s, Run(s, [e]))
  {
    StepCore(s, e);
    StepSession(s, e);
    hide Step, Enabled, Core;
    RunNothing(Step(s, e));
    RunCons(s, e, []);
    assert [e] + [] == [e];
  }

  /** Whatever holds the lock lets go of it. */
  lemma Unlocks(s: State) returns (es: seq<Event>)
    requires Core(s)
    ensures Unlocked(s, Run(s, es))
  {
    hide Core, Run, Step, Enabled;
    if s.lock.Free? {
      RunNothing(s);
      es := [];
    } else if s.lock.Stopping? {
      es := RestUnlocks(s);
    } else {
      var e := LockEnds(s);
      Released(s, e);
      es := [e];
    }
  }

  lemma LockEnds(s: State) returns (e: Event)
    requires Core(s) && !s.lock.Free? && !s.lock.Stopping?
    ensures Enabled(s, e) && Step(s, e).lock.Free?
  {
    e := match s.lock
      case Halting(_) => StopDone
      case Starting(_, _) => StartSlot(false)
      case Awaiting(_) => FallbackSlot(false)
      case _ => FallbackEnd(false);
    hide Slots, Ranges, Retries;
  }

  lemma RestUnlocks(s: State) returns (es: seq<Event>)
    requires Core(s) && s.lock.Stopping?
    ensures Unlocked(s, Run(s, es))
  {
    var e := EnsureRest(true);
    LockedIndex(s);
    var u, c := StartFreshIs(Abandon(s), s.lock.index, s.lock.limit, true);
    assert Enabled(s, e) && (Step(s, e).lock.Free? || Step(s, e).lock.Starting?);
    hide StartFresh, Core, Run, Enabled;
    if Step(s, e).lock.Free? {
      Released(s, e);
      es := [e];
    } else {
      StepCore(s, e);
      StepSession(s, e);
      var t := Step(s, e);
      assert Enabled(t, StartSlot(false)) && Step(t, StartSlot(false)).lock.Free? by { SlotRefused(t); }
      Released(t, StartSlot(false));
      RunCons(s, e, [StartSlot(false)]);
      es := [e] + [StartSlot(false)];
    }
  }

  lemma SlotRefused(s: State)
    requires s.lock.Starting?
    ensures Enabled(s, StartSlot(false)) && Step(s, StartSlot(false)).lock.Free?
  {
  }

  // ---- a segment that was given up ----

  lemma TwoSteps(s: State, e: Event, f: Event)
    requires Enabled(s, e) && Enabled(Step(s, e), f)
    ensures Run(s, [e] + [f]) == Step(Step(s, e), f)
  {
    hide Step, Enabled, Run;
    RunNothing(Step(Step(s, e), f));
    RunCons(Step(s, e), f, []);
    assert [f] + [] == [f];
    RunCons(s, e, [f]);
  }

  lemma AcceptPublishes(s: State, i: nat)
    requires s.lock.Free? && !s.render && i < s.count && i in s.fallback && HasFile(s, i)
    ensures Enabled(s, Look(i)) && Enabled(Step(s, Look(i)), Accept(i))
    ensures Ok(Step(Step(s, Look(i)), Accept(i)), i)
  {
  }

  lemma EncodePublishes(s: State, i: nat)
    requires s.lock == Awaiting(i) && s.free > 0
    ensures Enabled(s, FallbackSlot(true)) && Enabled(Step(s, FallbackSlot(true)), FallbackEnd(true))
    ensures Ok(Step(Step(s, FallbackSlot(true)), FallbackEnd(true)), i)
  {
    SlotEncodes(s, i);
    var t := Step(s, FallbackSlot(true));
    hide Step;
    EndPublishes(t, i);
  }

  lemma SlotEncodes(s: State, i: nat)
    requires s.lock == Awaiting(i) && s.free > 0
    ensures Enabled(s, FallbackSlot(true)) && Step(s, FallbackSlot(true)).lock == Encoding(i)
  {
  }

  lemma EndPublishes(s: State, i: nat)
    requires s.lock == Encoding(i)
    ensures Enabled(s, FallbackEnd(true)) && Ok(Step(s, FallbackEnd(true)), i)
  {
  }

  lemma FallbackPublishes(s: State, i: nat) returns (es: seq<Event>)
    requires Core(s) && s.lock.Free? && !s.render && i < s.count && i in s.fallback
    ensures Ok(Run(s, es), i)
  {
    if HasFile(s, i) {
      AcceptPublishes(s, i);
      TwoSteps(s, Look(i), Accept(i));
      es := [Look(i)] + [Accept(i)];
    } else {
      var t := Step(s, FallbackBegin(i));
      assert t.lock == Awaiting(i);
      StepCore(s, FallbackBegin(i));
      hide Step, Run, Core, Ok;
      var wait := SlotComes(t);
      EncodePublishes(Run(t, wait), i);
      TwoSteps(Run(t, wait), FallbackSlot(true), FallbackEnd(true));
      RunJoin(t, wait, [FallbackSlot(true)] + [FallbackEnd(true)]);
      es := wait + ([FallbackSlot(true)] + [FallbackEnd(true)]);
      RunCons(s, FallbackBegin(i), es);
      es := [FallbackBegin(i)] + es;
    }
  }

  // ---- a segment that a batch writes ----

  // A batch that begins with the segment writes, lists and validates it.
  ghost function FirstSegment(b: nat): seq<Event> {
    [Write(b, false)] + ([Close(b)] + ([Check(b)] + [Verdict(b, true)]))
  }

  lemma BatchPublishes(s: State, b: nat, i: nat)
    requires b < |s.batches| && i !in s.fallback && s.batches[b].first == s.batches[b].read == s.batches[b].cursor == i
    requires s.batches[b].stage == Running && i < s.batches[b].end
    requires s.batches[b].checking.None? && !s.batches[b].broken
    ensures Ok(Run(s, FirstSegment(b)), i)
  {
    var t := Step(s, Write(b, false));
    var v := Step(t, Close(b));
    CheckedPublishes(v, b, i);
    assert Enabled(s, Write(b, false)) && Enabled(t, Close(b));
    hide Step, Run, Ok, Enabled;
    RunCons(t, Close(b), [Check(b)] + [Verdict(b, true)]);
    RunCons(s, Write(b, false), [Close(b)] + ([Check(b)] + [Verdict(b, true)]));
  }

  lemma CheckedPublishes(s: State, b: nat, i: nat)
    requires b < |s.batches| && i !in s.fallback && s.batches[b].read == i < s.batches[b].cursor && HasFile(s, i)
    requires s.batches[b].stage == Running && s.batches[b].checking.None? && !s.batches[b].broken
    ensures Ok(Run(s, [Check(b)] + [Verdict(b, true)]), i)
  {
    CheckTakes(s, b, i);
    var t := Step(s, Check(b));
    hide Step, Run, Ok, Enabled;
    RunCons(s, Check(b), [Verdict(b, true)]);
    RunNothing(t);
    RunSnoc(t, [], Verdict(b, true));
    assert [] + [Verdict(b, true)] == [Verdict(b, true)];
    if Enabled(t, Verdict(b, true)) {
      VerdictPublishes(t, b, i);
    }
  }

  // The line goes under validation, unless it is published already.
  lemma CheckTakes(s: State, b: nat, i: nat)
    requires b < |s.batches| && i !in s.fallback && s.batches[b].read == i < s.batches[b].cursor && HasFile(s, i)
    requires s.batches[b].stage == Running && s.batches[b].checking.None? && !s.batches[b].broken
    ensures Enabled(s, Check(b))
    ensures var t := Step(s, Check(b));
            && (Enabled(t, Verdict(b, true)) ==> b < |t.batches| && t.batches[b].checking == Some(i) && HasFile(t, i))
            && (!Enabled(t, Verdict(b, true)) ==> Ok(t, i))
  {
  }

  lemma VerdictPublishes(s: State, b: nat, i: nat)
    requires Enabled(s, Verdict(b, true)) && s.batches[b].checking == Some(i) && HasFile(s, i)
    ensures Ok(Step(s, Verdict(b, true)), i)
  {
  }

  lemma StartedPublishes(s: State, i: nat) returns (es: seq<Event>)
    requires Core(s) && s.lock.Starting? && s.lock.first == i && i !in s.fallback
    ensures Ok(Run(s, es), i)
  {
    assert s.lock.first < s.lock.end;
    hide Core, Run, Ok;
    var wait := SlotComes(s);
    var t := Run(s, wait);
    var b, v := |t.batches|, Step(t, StartSlot(true));
    assert v.batches[b] == NewBatch(i, s.lock.end) && v.fallback == s.fallback;
    hide Step;
    BatchPublishes(v, b, i);
    RunCons(t, StartSlot(true), FirstSegment(b));
    RunJoin(s, wait, [StartSlot(true)] + FirstSegment(b));
    es := wait + ([StartSlot(true)] + FirstSegment(b));
  }

  lemma AskedPublishes(s: State, i: nat) returns (es: seq<Event>)
    requires Core(s) && s.lock.Free? && !s.render && i < s.count && s.current.None? && !Ok(s, i) && i !in s.fallback
    ensures Ok(Run(s, es), i)
  {
    var e := Ensure(i, None, false);
    EnsureDecides(s, i, None, false);
    StepCore(s, e);
    var u, c := StartFreshIs(s, i, None, false);
    assert Step(s, e).lock.Starting? && Step(s, e).lock.first == i && i !in Step(s, e).fallback;
    hide Core, Run, Step, Ok, StartFresh;
    es := StartedPublishes(Step(s, e), i);
    RunCons(s, e, es);
    es := [e] + es;
  }

  // Without a running batch, after stopping the one there is
  lemma Stops(s: State) returns (es: seq<Event>)
    requires Core(s) && s.lock.Free? && !s.render
    ensures var t := Run(s, es);
            && Core(t) && SameSession(s, t) && t.lock.Free? && t.current.None?
            && t.files == s.files && t.completed == s.completed && t.fallback == s.fallback
  {
    es := [];
    RunNothing(s);
    if s.current.Some? {
      var t := Step(s, Stop);
      assert t.lock.Halting? && Enabled(t, StopDone);
      StepCore(s, Stop);
      StepSession(s, Stop);
      StepCore(t, StopDone);
      StepSession(t, StopDone);
      RunNothing(Step(t, StopDone));
      assert Step(t, StopDone) == Abandon(t);
      hide Core, Run;
      RunCons(t, StopDone, []);
      assert [StopDone] + [] == [StopDone];
      RunCons(s, Stop, [StopDone]);
      es := [Stop] + [StopDone];
    }
  }

  /** From every state of a session on demand, every segment of the rendition is published in some continuation, with
      its file: no lock, no lost slot, no batch and no failure stands in the way for good. */
  lemma AnySegmentCanBePublished(s: State, i: nat) returns (es: seq<Event>)
    requires Core(s) && !s.render && i < s.count
    ensures Ok(Run(s, es), i)
  {
    hide Core, Run, Ok;
    es := Unlocks(s);
    var t := Run(s, es);
    if Ok(t, i) {
      return;
    }
    var more: seq<Event>;
    if i in t.fallback {
      more := FallbackPublishes(t, i);
    } else {
      more := BatchComes(t, i);
    }
    RunJoin(s, es, more);
    es := es + more;
  }

  lemma BatchComes(s: State, i: nat) returns (es: seq<Event>)
    requires Core(s) && s.lock.Free? && !s.render && i < s.count && !Ok(s, i) && i !in s.fallback
    ensures Ok(Run(s, es), i)
  {
    es := Stops(s);
    var t := Run(s, es);
    assert !Ok(t, i);
    hide Core, Run, Ok;
    var more := AskedPublishes(t, i);
    RunJoin(s, es, more);
    es := es + more;
  }
}
