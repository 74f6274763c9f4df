/** Runs of a session in which a published segment is replaced or lost (python-worker/streamlift_worker/streaming.py and
    renders.py): every condition of module SchedulerSafety fails somewhere. In the first three no wait gives up, in the
    last three one does. */
module SchedulerRuns {
  import opened Basics
  import opened Scheduler
  import opened SchedulerSafety

  ghost predicate Leads(s: State, e: Event, t: State) {
    Enabled(s, e) && Step(s, e) == t
  }

  lemma Then(init: State, es: seq<Event>, s: State, e: Event, t: State)
    requires Run(init, es) == s && Leads(s, e, t)
    ensures Run(init, es + [e]) == t
  {
    hide Enabled, Step;
    RunSnoc(init, es, e);
  }

  // A request on its own: a clean-up that finds nothing to delete but what is not published, and the choice of a range
  lemma StartsFresh(s: State, index: nat, limit: Option<nat>, files: map<nat, File>)
    requires index < s.count && s.completed <= {index} && s.batchFailures == 0
    requires index in s.completed ==> HasFile(s, index)
    requires files == map i | i in s.files && i in s.completed :: s.files[i]
    ensures StartFresh(s, index, limit, false)
            == s.(files := files, lock := Starting(index, WideEnd(index, limit, s.count)))
  {
    var wide := WideEnd(index, limit, s.count);
    var c := FirstCompleted(s.completed, index + 1, wide);
    assert Clean(s) == s.(files := files);
    assert Forget(Clean(s), index) == Clean(s);
  }

  // ---- the first segment, written by a batch of its own ----

  ghost function Head(cursor: nat, read: nat, checking: Option<nat>, stage: Stage, stopped: bool): Batch {
    Batch(0, 1, cursor, read, checking, stage, stopped, true, false, false)
  }

  // The session with the head batch and what it has written
  ghost function Heading(count: nat, copy: bool, render: bool, x: Batch, written: bool): State {
    Initial(count, copy, render).(
      files := if written then map[0 := File(0, false)] else map[], batches := [x], current := Some(0), free := 1,
      clock := if written then 1 else 0)
  }

  ghost function Written(count: nat, copy: bool, render: bool): State {
    Heading(count, copy, render, Head(1, 0, None, Exited, false), true)
  }

  ghost function Asked(count: nat, copy: bool, render: bool): State {
    Initial(count, copy, render).(lock := Starting(0, 1))
  }

  lemma HeadStarts(count: nat, copy: bool, render: bool)
    requires count > 0
    ensures Leads(Initial(count, copy, render), Ensure(0, Some(1), false), Asked(count, copy, render))
    ensures Leads(Asked(count, copy, render), StartSlot(true),
                  Heading(count, copy, render, Head(0, 0, None, Running, false), false))
  {
    StartsFresh(Initial(count, copy, render), 0, Some(1), map[]);
    hide StartFresh;
    assert [] + [NewBatch(0, 1)] == [NewBatch(0, 1)];
  }

  lemma HeadWrites(count: nat, copy: bool, render: bool)
    ensures var x := Head(0, 0, None, Running, false);
            && Leads(Heading(count, copy, render, x, false), Write(0, false), Heading(count, copy, render, x, true))
            && Leads(Heading(count, copy, render, x, true), Close(0),
                     Heading(count, copy, render, x.(cursor := 1), true))
            && Leads(Heading(count, copy, render, x.(cursor := 1), true), Exit(0, true), Written(count, copy, render))
  {
    var x := Head(0, 0, None, Running, false);
    assert map[][0 := File(0, false)] == map[0 := File(0, false)];
    assert [x][0 := x.(cursor := 1)] == [x.(cursor := 1)];
    assert [x.(cursor := 1)][0 := Head(1, 0, None, Exited, false)] == [Head(1, 0, None, Exited, false)];
  }

  lemma HeadRuns(count: nat, copy: bool, render: bool) returns (es: seq<Event>)
    requires count > 0
    ensures Run(Initial(count, copy, render), es) == Written(count, copy, render)
  {
    var s0, x := Initial(count, copy, render), Head(0, 0, None, Running, false);
    assert Run(s0, []) == s0;
    hide Run, Leads, Heading, Written, Asked;
    HeadStarts(count, copy, render);
    HeadWrites(count, copy, render);
    Then(s0, [], s0, Ensure(0, Some(1), false), Asked(count, copy, render));
    es := [] + [Ensure(0, Some(1), false)];
    Then(s0, es, Asked(count, copy, render), StartSlot(true), Heading(count, copy, render, x, false));
    es := es + [StartSlot(true)];
    Then(s0, es, Heading(count, copy, render, x, false), Write(0, false), Heading(count, copy, render, x, true));
    es := es + [Write(0, false)];
    Then(s0, es, Heading(count, copy, render, x, true), Close(0), Heading(count, copy, render, x.(cursor := 1), true));
    es := es + [Close(0)];
    Then(s0, es, Heading(count, copy, render, x.(cursor := 1), true), Exit(0, true), Written(count, copy, render));
    es := es + [Exit(0, true)];
  }

  // ---- a request that waits for a watcher which publishes its segment ----

  // The request waits; the watcher's batch is in the given stage.
  ghost function Overtaken(x: Batch, published: bool): State {
    Heading(1, false, false, x, true).(
      completed := if published then {0} else {}, current := if x.Live() then Some(0) else None,
      lock := Stopping(0, 0, None), free := if x.stage == Released then 2 else 1)
  }

  lemma OvertakenWaits()
    ensures Leads(Written(1, false, false), Ensure(0, None, false), Overtaken(Head(1, 0, None, Exited, true), false))
  {
    assert [Head(1, 0, None, Exited, false)][0 := Head(1, 0, None, Exited, true)] == [Head(1, 0, None, Exited, true)];
  }

  lemma OvertakenReads()
    ensures Leads(Overtaken(Head(1, 0, None, Exited, true), false), Check(0),
                  Overtaken(Head(1, 1, Some(0), Exited, true), false))
  {
    var x, y := Head(1, 0, None, Exited, true), Head(1, 1, Some(0), Exited, true);
    assert [x][0 := y] == [y];
  }

  lemma OvertakenJudges()
    ensures Leads(Overtaken(Head(1, 1, Some(0), Exited, true), false), Verdict(0, true),
                  Overtaken(Head(1, 1, None, Exited, true), true))
  {
    var x, y := Head(1, 1, Some(0), Exited, true), Head(1, 1, None, Exited, true);
    assert [x][0 := y] == [y];
    var none: map<nat, nat> := map[];
    assert none - {0} == none;
  }

  lemma OvertakenDetaches()
    ensures Leads(Overtaken(Head(1, 1, None, Exited, true), true), Detach(0),
                  Overtaken(Head(1, 1, None, Detached, true), true))
  {
    var x, y := Head(1, 1, None, Exited, true), Head(1, 1, None, Detached, true);
    assert [x][0 := y] == [y];
  }

  lemma OvertakenEnds()
    ensures Leads(Overtaken(Head(1, 1, None, Detached, true), true), Release(0),
                  Overtaken(Head(1, 1, None, Released, true), true))
  {
    var x, y := Head(1, 1, None, Detached, true), Head(1, 1, None, Released, true);
    assert [x][0 := y] == [y];
  }

  ghost function Restarted(): State {
    var s := Overtaken(Head(1, 1, None, Released, true), true);
    s.(batches := s.batches + [NewBatch(0, 1)], current := Some(1), lock := Free, free := 1)
  }

  lemma OvertakenRestarts()
    ensures var s := Overtaken(Head(1, 1, None, Released, true), true);
            && Ok(s, 0) && Leads(s, EnsureRest(false), s.(lock := Starting(0, 1)))
            && Leads(s.(lock := Starting(0, 1)), StartSlot(true), Restarted())
    ensures Enabled(Restarted(), Write(1, false))
            && Step(Restarted(), Write(1, false)).files == map[0 := File(1, false)]
  {
    var s := Overtaken(Head(1, 1, None, Released, true), true);
    StartsFresh(Abandon(s), 0, None, map[0 := File(0, false)]);
    hide StartFresh;
  }

  /** A request arrives between the end of a batch and its watcher's last look at the list, waits for the watcher, and
      then encodes the segment the watcher has just published once more. */
  lemma StaleRestartHappens() returns (before: seq<Event>, after: seq<Event>)
    ensures var s := Run(Initial(1, false, false), before); var t := Run(Initial(1, false, false), before + after);
            Ok(s, 0) && 0 in t.files && t.files[0] != s.files[0]
  {
    hide Run, Leads, Overtaken, Written, Restarted;
    var s0 := Initial(1, false, false);
    before := HeadRuns(1, false, false);
    OvertakenWaits();
    OvertakenReads();
    OvertakenJudges();
    OvertakenDetaches();
    OvertakenEnds();
    Then(s0, before, Written(1, false, false), Ensure(0, None, false),
         Overtaken(Head(1, 0, None, Exited, true), false));
    before := before + [Ensure(0, None, false)];
    Then(s0, before, Overtaken(Head(1, 0, None, Exited, true), false), Check(0),
         Overtaken(Head(1, 1, Some(0), Exited, true), false));
    before := before + [Check(0)];
    Then(s0, before, Overtaken(Head(1, 1, Some(0), Exited, true), false), Verdict(0, true),
         Overtaken(Head(1, 1, None, Exited, true), true));
    before := before + [Verdict(0, true)];
    Then(s0, before, Overtaken(Head(1, 1, None, Exited, true), true), Detach(0),
         Overtaken(Head(1, 1, None, Detached, true), true));
    before := before + [Detach(0)];
    Then(s0, before, Overtaken(Head(1, 1, None, Detached, true), true), Release(0),
         Overtaken(Head(1, 1, None, Released, true), true));
    before := before + [Release(0)];
    after := StaleRest(before);
  }

  lemma StaleRest(before: seq<Event>) returns (after: seq<Event>)
    requires Run(Initial(1, false, false), before) == Overtaken(Head(1, 1, None, Released, true), true)
    ensures var s := Run(Initial(1, false, false), before); var t := Run(Initial(1, false, false), before + after);
            Ok(s, 0) && 0 in t.files && t.files[0] != s.files[0]
  {
    var s0, s := Initial(1, false, false), Overtaken(Head(1, 1, None, Released, true), true);
    hide Run, Leads, Restarted, Step, Enabled;
    OvertakenRestarts();
    Then(s0, before, s, EnsureRest(false), s.(lock := Starting(0, 1)));
    Then(s0, before + [EnsureRest(false)], s.(lock := Starting(0, 1)), StartSlot(true), Restarted());
    RunSnoc(s0, before + [EnsureRest(false)] + [StartSlot(true)], Write(1, false));
    after := [EnsureRest(false), StartSlot(true), Write(1, false)];
    assert before + after == before + [EnsureRest(false)] + [StartSlot(true)] + [Write(1, false)];
  }

  // ---- a fallback for a segment the next batch covers again ----

  // A copied session of two segments, before and after its second one has been given up
  ghost function Copied(files: map<nat, File>, batches: seq<Batch>, current: Option<nat>, free: nat, clock: nat): State
  {
    Initial(2, true, false).(files := files, batches := batches, current := current, free := free, clock := clock)
  }

  ghost function GivenUp(files: map<nat, File>, batches: seq<Batch>, current: Option<nat>, free: nat, clock: nat)
    : State
  {
    Copied(files, batches, current, free, clock).(fallback := {1}, attempts := map[1 := 1])
  }

  ghost function Tail(cursor: nat, read: nat, checking: Option<nat>, stage: Stage): Batch {
    Batch(1, 2, cursor, read, checking, stage, false, true, false, false)
  }

  ghost function Whole(cursor: nat): Batch {
    Batch(0, 2, cursor, 0, None, Running, false, true, false, false)
  }

  lemma TailStarts()
    ensures var t := Initial(2, true, false).(lock := Starting(1, 2));
            && Leads(Initial(2, true, false), Ensure(1, None, false), t)
            && Leads(t, StartSlot(true), Copied(map[], [Tail(1, 1, None, Running)], Some(0), 1, 0))
  {
    StartsFresh(Initial(2, true, false), 1, None, map[]);
    hide StartFresh;
    assert [] + [NewBatch(1, 2)] == [Tail(1, 1, None, Running)];
  }

  lemma TailWrites()
    ensures var f := map[1 := File(0, false)];
            && Leads(Copied(map[], [Tail(1, 1, None, Running)], Some(0), 1, 0), Write(0, false),
                     Copied(f, [Tail(1, 1, None, Running)], Some(0), 1, 1))
            && Leads(Copied(f, [Tail(1, 1, None, Running)], Some(0), 1, 1), Close(0),
                     Copied(f, [Tail(2, 1, None, Running)], Some(0), 1, 1))
            && Leads(Copied(f, [Tail(2, 1, None, Running)], Some(0), 1, 1), Exit(0, true),
                     Copied(f, [Tail(2, 1, None, Exited)], Some(0), 1, 1))
  {
    assert map[][1 := File(0, false)] == map[1 := File(0, false)];
    assert [Tail(1, 1, None, Running)][0 := Tail(2, 1, None, Running)] == [Tail(2, 1, None, Running)];
    assert [Tail(2, 1, None, Running)][0 := Tail(2, 1, None, Exited)] == [Tail(2, 1, None, Exited)];
  }

  lemma TailChecks()
    ensures var f := map[1 := File(0, false)];
            Leads(Copied(f, [Tail(2, 1, None, Exited)], Some(0), 1, 1), Check(0),
                  Copied(f, [Tail(2, 2, Some(1), Exited)], Some(0), 1, 1))
  {
    assert [Tail(2, 1, None, Exited)][0 := Tail(2, 2, Some(1), Exited)] == [Tail(2, 2, Some(1), Exited)];
  }

  lemma TailGivenUp()
    ensures Leads(Copied(map[1 := File(0, false)], [Tail(2, 2, Some(1), Exited)], Some(0), 1, 1), Verdict(0, false),
                  GivenUp(map[], [Tail(2, 2, None, Exited)], Some(0), 1, 1))
  {
    assert [Tail(2, 2, Some(1), Exited)][0 := Tail(2, 2, None, Exited)] == [Tail(2, 2, None, Exited)];
    assert map[1 := File(0, false)] - {1} == map[];
    assert map[][1 := 1] == map[1 := 1];
  }

  lemma TailDetached()
    ensures Leads(GivenUp(map[], [Tail(2, 2, None, Exited)], Some(0), 1, 1), Detach(0),
                  GivenUp(map[], [Tail(2, 2, None, Detached)], None, 1, 1))
  {
    assert [Tail(2, 2, None, Exited)][0 := Tail(2, 2, None, Detached)] == [Tail(2, 2, None, Detached)];
  }

  lemma TailEnded()
    ensures Leads(GivenUp(map[], [Tail(2, 2, None, Detached)], None, 1, 1), Release(0),
                  GivenUp(map[], [Tail(2, 2, None, Released)], None, 2, 1))
  {
    assert [Tail(2, 2, None, Detached)][0 := Tail(2, 2, None, Released)] == [Tail(2, 2, None, Released)];
  }

  lemma WholeStarts()
    ensures var s := GivenUp(map[], [Tail(2, 2, None, Released)], None, 2, 1); var t := s.(lock := Starting(0, 2));
            && Leads(s, Ensure(0, None, false), t)
            && Leads(t, StartSlot(true), GivenUp(map[], [Tail(2, 2, None, Released), Whole(0)], Some(1), 1, 1))
  {
    StartsFresh(GivenUp(map[], [Tail(2, 2, None, Released)], None, 2, 1), 0, None, map[]);
    hide StartFresh;
    assert [Tail(2, 2, None, Released)] + [NewBatch(0, 2)] == [Tail(2, 2, None, Released), Whole(0)];
  }

  lemma WholeWrites()
    ensures var f, x := map[0 := File(1, false)], Tail(2, 2, None, Released);
            && Leads(GivenUp(map[], [x, Whole(0)], Some(1), 1, 1), Write(1, false),
                     GivenUp(f, [x, Whole(0)], Some(1), 1, 2))
            && Leads(GivenUp(f, [x, Whole(0)], Some(1), 1, 2), Close(1), GivenUp(f, [x, Whole(1)], Some(1), 1, 2))
  {
    var x := Tail(2, 2, None, Released);
    assert map[][0 := File(1, false)] == map[0 := File(1, false)];
    assert [x, Whole(0)][1 := Whole(1)] == [x, Whole(1)];
  }

  lemma TailBatchRuns() returns (es: seq<Event>)
    ensures Run(Initial(2, true, false), es)
            == Copied(map[1 := File(0, false)], [Tail(2, 1, None, Exited)], Some(0), 1, 1)
  {
    var s0, f := Initial(2, true, false), map[1 := File(0, false)];
    assert Run(s0, []) == s0;
    hide Leads, Run, Copied, Tail;
    TailStarts();
    TailWrites();
    es := [] + [Ensure(1, None, false)];
    Then(s0, [], s0, Ensure(1, None, false), s0.(lock := Starting(1, 2)));
    Then(s0, es, s0.(lock := Starting(1, 2)), StartSlot(true),
         Copied(map[], [Tail(1, 1, None, Running)], Some(0), 1, 0));
    es := es + [StartSlot(true)];
    Then(s0, es, Copied(map[], [Tail(1, 1, None, Running)], Some(0), 1, 0), Write(0, false),
         Copied(f, [Tail(1, 1, None, Running)], Some(0), 1, 1));
    es := es + [Write(0, false)];
    Then(s0, es, Copied(f, [Tail(1, 1, None, Running)], Some(0), 1, 1), Close(0),
         Copied(f, [Tail(2, 1, None, Running)], Some(0), 1, 1));
    es := es + [Close(0)];
    Then(s0, es, Copied(f, [Tail(2, 1, None, Running)], Some(0), 1, 1), Exit(0, true),
         Copied(f, [Tail(2, 1, None, Exited)], Some(0), 1, 1));
    es := es + [Exit(0, true)];
  }

  lemma TailEnds() returns (es: seq<Event>)
    ensures Run(Initial(2, true, false), es) == GivenUp(map[], [Tail(2, 2, None, Released)], None, 2, 1)
  {
    var s0, f := Initial(2, true, false), map[1 := File(0, false)];
    hide Leads, Run, Copied, GivenUp, Tail;
    es := TailBatchRuns();
    TailChecks();
    TailGivenUp();
    TailDetached();
    TailEnded();
    Then(s0, es, Copied(f, [Tail(2, 1, None, Exited)], Some(0), 1, 1), Check(0),
         Copied(f, [Tail(2, 2, Some(1), Exited)], Some(0), 1, 1));
    es := es + [Check(0)];
    Then(s0, es, Copied(f, [Tail(2, 2, Some(1), Exited)], Some(0), 1, 1), Verdict(0, false),
         GivenUp(map[], [Tail(2, 2, None, Exited)], Some(0), 1, 1));
    es := es + [Verdict(0, false)];
    Then(s0, es, GivenUp(map[], [Tail(2, 2, None, Exited)], Some(0), 1, 1), Detach(0),
         GivenUp(map[], [Tail(2, 2, None, Detached)], None, 1, 1));
    es := es + [Detach(0)];
    Then(s0, es, GivenUp(map[], [Tail(2, 2, None, Detached)], None, 1, 1), Release(0),
         GivenUp(map[], [Tail(2, 2, None, Released)], None, 2, 1));
    es := es + [Release(0)];
  }

  // A batch for the first segment covers the second one again, and is about to write it.
  lemma WholeBatchRuns() returns (es: seq<Event>)
    ensures Run(Initial(2, true, false), es)
            == GivenUp(map[0 := File(1, false)], [Tail(2, 2, None, Released), Whole(1)], Some(1), 1, 2)
  {
    hide Leads, Copied, GivenUp, Tail, Whole, Run;
    es := TailEnds();
    WholeStarts();
    WholeWrites();
    var s0, f, x := Initial(2, true, false), map[0 := File(1, false)], Tail(2, 2, None, Released);
    var t := GivenUp(map[], [x], None, 2, 1).(lock := Starting(0, 2));
    Then(s0, es, GivenUp(map[], [x], None, 2, 1), Ensure(0, None, false), t);
    es := es + [Ensure(0, None, false)];
    Then(s0, es, t, StartSlot(true), GivenUp(map[], [x, Whole(0)], Some(1), 1, 1));
    es := es + [StartSlot(true)];
    Then(s0, es, GivenUp(map[], [x, Whole(0)], Some(1), 1, 1), Write(1, false),
         GivenUp(f, [x, Whole(0)], Some(1), 1, 2));
    es := es + [Write(1, false)];
    Then(s0, es, GivenUp(f, [x, Whole(0)], Some(1), 1, 2), Close(1), GivenUp(f, [x, Whole(1)], Some(1), 1, 2));
    es := es + [Close(1)];
  }

  ghost function Encoded(lock: Lock, ended: bool): State {
    var s := GivenUp(map[0 := File(1, false)], [Tail(2, 2, None, Released), Whole(1)], Some(1), 1, 2);
    if ended then s.(files := map[0 := File(1, false), 1 := File(2, false)], completed := {1}, clock := 3)
    else s.(free := if lock.Encoding? then 0 else 1, lock := lock)
  }

  lemma FallbackBegins()
    ensures Leads(GivenUp(map[0 := File(1, false)], [Tail(2, 2, None, Released), Whole(1)], Some(1), 1, 2),
                  FallbackBegin(1), Encoded(Awaiting(1), false))
  {
  }

  lemma FallbackGetsSlot()
    ensures Leads(Encoded(Awaiting(1), false), FallbackSlot(true), Encoded(Encoding(1), false))
  {
  }

  lemma FallbackEncodes()
    ensures Leads(Encoded(Encoding(1), false), FallbackEnd(true), Encoded(Free, true)) && Ok(Encoded(Free, true), 1)
  {
  }

  lemma FallbackOverwritten()
    ensures Enabled(Encoded(Free, true), Write(1, false))
            && Step(Encoded(Free, true), Write(1, false)).files[1] != Encoded(Free, true).files[1]
  {
  }

  /** A copied segment fails validation, a batch for an earlier one covers it again, and while it is being written a
      fallback for the segment is encoded and published. The batch then writes the segment over it. */
  lemma FallbackReplacementHappens() returns (before: seq<Event>, after: seq<Event>)
    ensures var s := Run(Initial(2, true, false), before); var t := Run(Initial(2, true, false), before + after);
            Ok(s, 1) && 1 in t.files && t.files[1] != s.files[1]
  {
    hide Leads, Tail, Whole, Run;
    before := WholeBatchRuns();
    FallbackBegins();
    FallbackGetsSlot();
    FallbackEncodes();
    FallbackOverwritten();
    var s0, f, x := Initial(2, true, false), map[0 := File(1, false)], Tail(2, 2, None, Released);
    Then(s0, before, GivenUp(f, [x, Whole(1)], Some(1), 1, 2), FallbackBegin(1), Encoded(Awaiting(1), false));
    before := before + [FallbackBegin(1)];
    Then(s0, before, Encoded(Awaiting(1), false), FallbackSlot(true), Encoded(Encoding(1), false));
    before := before + [FallbackSlot(true)];
    Then(s0, before, Encoded(Encoding(1), false), FallbackEnd(true), Encoded(Free, true));
    before := before + [FallbackEnd(true)];
    after := [Write(1, false)];
    RunSnoc(s0, before, Write(1, false));
  }

  ghost function HalfWritten(looked: bool, accepted: bool): State {
    GivenUp(map[0 := File(1, false), 1 := File(2, false)], [Tail(2, 2, None, Released), Whole(1)], Some(1), 1, 3).(
      looked := if looked then multiset{1} else multiset{}, completed := if accepted then {1} else {})
  }

  lemma HalfIsFound()
    ensures Leads(GivenUp(map[0 := File(1, false)], [Tail(2, 2, None, Released), Whole(1)], Some(1), 1, 2),
                  Write(1, false), HalfWritten(false, false))
    ensures Leads(HalfWritten(false, false), Look(1), HalfWritten(true, false))
  {
    assert map[0 := File(1, false)][1 := File(2, false)] == map[0 := File(1, false), 1 := File(2, false)];
    assert multiset{} + multiset{1 as nat} == multiset{1 as nat};
  }

  lemma HalfIsAccepted()
    ensures Leads(HalfWritten(true, false), Accept(1), HalfWritten(false, true)) && Ok(HalfWritten(false, true), 1)
    ensures Enabled(HalfWritten(false, true), Write(1, false))
            && Step(HalfWritten(false, true), Write(1, false)).files[1] != HalfWritten(false, true).files[1]
  {
    assert multiset{1 as nat} - multiset{1 as nat} == multiset{};
  }

  /** Or a request for the same segment finds what the batch has written of it so far, takes it for the finished
      fallback and publishes it, and the batch writes on. */
  lemma AcceptReplacementHappens() returns (before: seq<Event>, after: seq<Event>)
    ensures var s := Run(Initial(2, true, false), before); var t := Run(Initial(2, true, false), before + after);
            Ok(s, 1) && 1 in t.files && t.files[1] != s.files[1]
  {
    hide Leads, Tail, Whole, Run;
    before := WholeBatchRuns();
    HalfIsFound();
    HalfIsAccepted();
    var s0, f, x := Initial(2, true, false), map[0 := File(1, false)], Tail(2, 2, None, Released);
    Then(s0, before, GivenUp(f, [x, Whole(1)], Some(1), 1, 2), Write(1, false), HalfWritten(false, false));
    before := before + [Write(1, false)];
    Then(s0, before, HalfWritten(false, false), Look(1), HalfWritten(true, false));
    before := before + [Look(1)];
    Then(s0, before, HalfWritten(true, false), Accept(1), HalfWritten(false, true));
    before := before + [Accept(1)];
    after := [Write(1, false)];
    RunSnoc(s0, before, Write(1, false));
  }

  // ---- a watcher that is left behind ----

  // A new batch beside the one whose watcher is still at work
  ghost function Beside(x: Batch, y: Batch, files: map<nat, File>, clock: nat): State {
    Initial(y.end, false, false).(files := files, batches := [x, y], current := Some(1), free := 0, clock := clock)
  }

  ghost function Leaving(count: nat, x: Batch, index: nat): State {
    Heading(count, false, false, x, true).(lock := Stopping(0, index, None))
  }

  ghost function Left(count: nat, x: Batch, index: nat): State {
    Heading(count, false, false, x, false).(current := None, lock := Starting(index, count), clock := 1)
  }

  lemma LeavesBehind(count: nat, x: Batch, index: nat)
    requires x == Head(1, x.read, x.checking, Exited, true) && index < count <= 2
    ensures Leads(Leaving(count, x, index), EnsureRest(false), Left(count, x, index))
    ensures Leads(Left(count, x, index), StartSlot(true), Beside(x, NewBatch(index, count), map[], 1))
  {
    StartsFresh(Abandon(Leaving(count, x, index)), index, None, map[]);
    hide StartFresh;
    assert [x] + [NewBatch(index, count)] == [x, NewBatch(index, count)];
  }

  lemma SeeksAway()
    ensures var x := Head(1, 1, Some(0), Exited, false);
            && Leads(Written(2, false, false), Check(0), Heading(2, false, false, x, true))
            && Leads(Heading(2, false, false, x, true), Ensure(1, None, false), Leaving(2, x.(stopped := true), 1))
  {
    var x := Head(1, 1, Some(0), Exited, false);
    assert [Head(1, 0, None, Exited, false)][0 := x] == [x];
    assert [x][0 := x.(stopped := true)] == [x.(stopped := true)];
  }

  lemma JudgesLate(x: Batch, y: Batch, files: map<nat, File>, clock: nat)
    requires x == Head(1, 1, Some(0), Exited, true)
    ensures var s := Beside(x, y, files, clock);
            Leads(s, Verdict(0, true), Beside(x.(checking := None), y, files, clock).(completed := {0}))
  {
    assert [x, y][0 := x.(checking := None)] == [x.(checking := None), y];
    var none: map<nat, nat> := map[];
    assert none - {0} == none;
  }

  /** The wait for a watcher gives up while a segment is under validation: the clean-up deletes the segment's file, the
      validation ends well, and the segment is published without its file. */
  lemma LostWhileChecked() returns (es: seq<Event>)
    ensures var s := Run(Initial(2, false, false), es);
            0 in s.completed && 0 !in s.files && |s.batches| == 2 && s.batches[0].Live() && s.batches[1].Live()
  {
    hide Run, Leads, Written, Leaving, Left, Heading;
    var s0, x := Initial(2, false, false), Head(1, 1, Some(0), Exited, false);
    var z := x.(stopped := true);
    es := HeadRuns(2, false, false);
    SeeksAway();
    LeavesBehind(2, z, 1);
    JudgesLate(z, NewBatch(1, 2), map[], 1);
    Then(s0, es, Written(2, false, false), Check(0), Heading(2, false, false, x, true));
    es := es + [Check(0)];
    Then(s0, es, Heading(2, false, false, x, true), Ensure(1, None, false), Leaving(2, z, 1));
    es := es + [Ensure(1, None, false)];
    Then(s0, es, Leaving(2, z, 1), EnsureRest(false), Left(2, z, 1));
    es := es + [EnsureRest(false)];
    Then(s0, es, Left(2, z, 1), StartSlot(true), Beside(z, NewBatch(1, 2), map[], 1));
    es := es + [StartSlot(true)];
    Then(s0, es, Beside(z, NewBatch(1, 2), map[], 1), Verdict(0, true),
         Beside(z.(checking := None), NewBatch(1, 2), map[], 1).(completed := {0}));
    es := es + [Verdict(0, true)];
  }

  lemma AsksAgain()
    ensures Leads(Written(1, false, false), Ensure(0, None, false), Leaving(1, Head(1, 0, None, Exited, true), 0))
  {
    assert [Head(1, 0, None, Exited, false)][0 := Head(1, 0, None, Exited, true)] == [Head(1, 0, None, Exited, true)];
  }

  lemma ReadsTheOther()
    ensures var x, y, f := Head(1, 0, None, Exited, true), NewBatch(0, 1), map[0 := File(1, false)];
            && Leads(Beside(x, y, map[], 1), Write(1, false), Beside(x, y, f, 2))
            && Leads(Beside(x, y, f, 2), Check(0), Beside(x.(read := 1, checking := Some(0)), y, f, 2))
  {
    var x, y, f := Head(1, 0, None, Exited, true), NewBatch(0, 1), map[0 := File(1, false)];
    assert map[][0 := File(1, false)] == f;
    assert [x, y][0 := x.(read := 1, checking := Some(0))] == [x.(read := 1, checking := Some(0)), y];
  }

  lemma WritesOn()
    ensures var f := map[0 := File(1, false)];
            var s := Beside(Head(1, 1, None, Exited, true), NewBatch(0, 1), f, 2).(completed := {0});
            Ok(s, 0) && Enabled(s, Write(1, false)) && Step(s, Write(1, false)).files == map[0 := File(2, false)]
  {
  }

  /** The wait gives up with a line unread: the watcher takes what the next batch has written of the segment so far for
      the finished one and publishes it, and the batch writes on. */
  lemma PublishedWhileWritten() returns (before: seq<Event>, after: seq<Event>)
    ensures var s := Run(Initial(1, false, false), before); var t := Run(Initial(1, false, false), before + after);
            Ok(s, 0) && 0 in t.files && t.files[0] != s.files[0]
  {
    hide Run, Leads, Written, Leaving, Left, Heading;
    var s0, x, y := Initial(1, false, false), Head(1, 0, None, Exited, true), NewBatch(0, 1);
    var f, z := map[0 := File(1, false)], Head(1, 1, Some(0), Exited, true);
    before := HeadRuns(1, false, false);
    AsksAgain();
    LeavesBehind(1, x, 0);
    ReadsTheOther();
    JudgesLate(z, y, f, 2);
    WritesOn();
    Then(s0, before, Written(1, false, false), Ensure(0, None, false), Leaving(1, x, 0));
    before := before + [Ensure(0, None, false)];
    Then(s0, before, Leaving(1, x, 0), EnsureRest(false), Left(1, x, 0));
    before := before + [EnsureRest(false)];
    Then(s0, before, Left(1, x, 0), StartSlot(true), Beside(x, y, map[], 1));
    before := before + [StartSlot(true)];
    Then(s0, before, Beside(x, y, map[], 1), Write(1, false), Beside(x, y, f, 2));
    before := before + [Write(1, false)];
    Then(s0, before, Beside(x, y, f, 2), Check(0), Beside(z, y, f, 2));
    before := before + [Check(0)];
    Then(s0, before, Beside(z, y, f, 2), Verdict(0, true), Beside(z.(checking := None), y, f, 2).(completed := {0}));
    before := before + [Verdict(0, true)];
    after := [Write(1, false)];
    RunSnoc(s0, before, Write(1, false));
  }

  // ---- a render driver that goes on ----

  ghost function Driven(looked: bool, published: bool): State {
    Heading(1, true, true, Head(1, 1, Some(0), Exited, false), true).(
      looked := if looked then multiset{0} else multiset{}, completed := if published then {0} else {})
  }

  lemma DriverIsLeftWaiting()
    ensures Leads(Written(1, true, true), Check(0), Driven(false, false))
  {
    var x, y := Head(1, 0, None, Exited, false), Head(1, 1, Some(0), Exited, false);
    assert [x][0 := y] == [y];
  }

  lemma DriverLooks()
    ensures Leads(Driven(false, false), Look(0), Driven(true, false))
  {
    assert multiset{} + multiset{0 as nat} == multiset{0 as nat};
  }

  lemma DriverAccepts()
    ensures Leads(Driven(true, false), Accept(0), Driven(false, true))
  {
    assert multiset{0 as nat} - multiset{0 as nat} == multiset{};
  }

  lemma FileRemoved()
    ensures Ok(Driven(false, true), 0) && Enabled(Driven(false, true), Verdict(0, false))
    ensures 0 !in Step(Driven(false, true), Verdict(0, false)).files
  {
  }

  /** The driver of a render stops waiting for a watcher that has a segment under validation, finds the file and takes
      the segment as done, which completes the rendition; then the validation fails and the file is removed. */
  lemma DriverGivesUp() returns (before: seq<Event>, after: seq<Event>)
    ensures var s := Run(Initial(1, true, true), before); var t := Run(Initial(1, true, true), before + after);
            Ok(s, 0) && 0 !in t.files
  {
    hide Run, Leads, Written, Driven, Step, Enabled;
    var s0 := Initial(1, true, true);
    before := HeadRuns(1, true, true);
    DriverIsLeftWaiting();
    DriverLooks();
    DriverAccepts();
    FileRemoved();
    Then(s0, before, Written(1, true, true), Check(0), Driven(false, false));
    before := before + [Check(0)];
    Then(s0, before, Driven(false, false), Look(0), Driven(true, false));
    before := before + [Look(0)];
    Then(s0, before, Driven(true, false), Accept(0), Driven(false, true));
    before := before + [Accept(0)];
    after := [Verdict(0, false)];
    RunSnoc(s0, before, Verdict(0, false));
  }
}
