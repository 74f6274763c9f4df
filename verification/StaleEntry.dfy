/** A run of the pre-render store in which a quality looks ready by a manifest entry that was left behind
    (python-worker/streamlift_worker/renders.py): the worker dies between the two halves of a delete, the quality is
    asked for again, and its first segment already matches the old entry. */
module StaleEntry {
  import opened Basics
  import opened RenderStore

  ghost predicate Leads(s: State, e: Event, t: State) {
    Enabled(s, e) && Step(s, e) == t
  }

  lemma Then(es: seq<Event>, s: State, e: Event, t: State)
    requires Run(es) == s && Leads(s, e, t)
    ensures Run(es + [e]) == t
  {
    hide Step, Enabled;
    assert (es + [e])[..|es|] == es;
  }

  // ---- the first render, of one segment ----

  ghost function Asked(count: nat, entries: Option<map<string, nat>>): State {
    State(entries, map[], [Job("a", count, Queued, false)], map["a" := 0], [0], None, Driving, [])
  }

  ghost function Working(count: nat, entries: Option<map<string, nat>>, dirs: map<string, set<nat>>, phase: Phase)
    : State
  {
    State(entries, dirs, [Job("a", count, Rendering, false)], map["a" := 0], [], Some(0), phase, [])
  }

  ghost function Done(dirs: map<string, set<nat>>, deleters: seq<Deleter>): State {
    State(Some(map["a" := 1]), dirs, [Job("a", 1, Ready, false)], map["a" := 0], [], None, Entering, deleters)
  }

  // What the dead worker leaves on disk: the entry without the directory
  ghost function Left(): State {
    State(Some(map["a" := 1]), map[], [], map[], [], None, Driving, [])
  }

  lemma AskedIs(count: nat, s: State)
    requires s == Initial() || s == Left()
    ensures Leads(s, Start([Wanted("a", count)], true), Asked(count, s.entries))
  {
    assert [Wanted("a", count)][..0] == [];
    assert StartJobs(s, [], true) == s;
    assert StartJobs(s, [Wanted("a", count)], true) == StartJob(s, "a", count, true);
  }

  lemma Begun(count: nat, entries: Option<map<string, nat>>)
    requires count > 0
    ensures Leads(Asked(count, entries), Dispatch, Working(count, entries, map[], Driving))
    ensures Leads(Working(count, entries, map[], Driving), Drive(true), Working(count, entries, map[], Resetting))
    ensures Leads(Working(count, entries, map[], Resetting), Publish(true), Working(count, entries, map[], Making))
    ensures Leads(Working(count, entries, map[], Making), Publish(true),
                  Working(count, entries, map["a" := {}], Moving(0)))
    ensures Leads(Working(count, entries, map["a" := {}], Moving(0)), Publish(true),
                  Working(count, entries, map["a" := {0}], Moving(1)))
  {
    assert [0][1..] == [];
    var nothing: set<nat> := {};
    assert nothing + {0} == {0};
  }

  lemma FirstEntered()
    ensures Leads(Working(1, None, map["a" := {0}], Moving(1)), Publish(true),
                  Working(1, None, map["a" := {0}], Entering))
    ensures Leads(Working(1, None, map["a" := {0}], Entering), Publish(true), Done(map["a" := {0}], []))
  {
  }

  lemma HalfDeleted()
    ensures Leads(Done(map["a" := {0}], []), DeleteBegin("a"), Done(map["a" := {0}], [Deleter("a", false)]))
    ensures Leads(Done(map["a" := {0}], [Deleter("a", false)]), DeleteDir(0), Done(map[], [Deleter("a", true)]))
    ensures Leads(Done(map[], [Deleter("a", true)]), Crash, Left())
  {
    assert [] + [Deleter("a", false)] == [Deleter("a", false)];
    assert [Deleter("a", false)][0 := Deleter("a", true)] == [Deleter("a", true)];
    assert map["a" := {0}] - {"a"} == map[];
  }

  lemma FirstRun() returns (es: seq<Event>)
    ensures Run(es) == Working(1, None, map["a" := {0}], Moving(1))
  {
    assert Run([]) == Initial();
    hide Leads, Run, Working, Asked;
    AskedIs(1, Initial());
    Begun(1, None);
    var none, empty := map[], map["a" := {}];
    Then([], Initial(), Start([Wanted("a", 1)], true), Asked(1, None));
    es := [] + [Start([Wanted("a", 1)], true)];
    Then(es, Asked(1, None), Dispatch, Working(1, None, none, Driving));
    es := es + [Dispatch];
    Then(es, Working(1, None, none, Driving), Drive(true), Working(1, None, none, Resetting));
    es := es + [Drive(true)];
    Then(es, Working(1, None, none, Resetting), Publish(true), Working(1, None, none, Making));
    es := es + [Publish(true)];
    Then(es, Working(1, None, none, Making), Publish(true), Working(1, None, empty, Moving(0)));
    es := es + [Publish(true)];
    Then(es, Working(1, None, empty, Moving(0)), Publish(true), Working(1, None, map["a" := {0}], Moving(1)));
    es := es + [Publish(true)];
  }

  lemma LeftRun() returns (es: seq<Event>)
    ensures Run(es) == Left()
  {
    hide Leads, Run, Working, Done, Left;
    es := FirstRun();
    FirstEntered();
    HalfDeleted();
    var full := map["a" := {0}];
    Then(es, Working(1, None, full, Moving(1)), Publish(true), Working(1, None, full, Entering));
    es := es + [Publish(true)];
    Then(es, Working(1, None, full, Entering), Publish(true), Done(full, []));
    es := es + [Publish(true)];
    Then(es, Done(full, []), DeleteBegin("a"), Done(full, [Deleter("a", false)]));
    es := es + [DeleteBegin("a")];
    Then(es, Done(full, [Deleter("a", false)]), DeleteDir(0), Done(map[], [Deleter("a", true)]));
    es := es + [DeleteDir(0)];
    Then(es, Done(map[], [Deleter("a", true)]), Crash, Left());
    es := es + [Crash];
  }

  // ---- the second render, of two segments ----

  ghost function Stopping(state: JobState, running: Option<nat>): State {
    State(Some(map["a" := 1]), map["a" := {0}], [Job("a", 2, state, true)], map["a" := 0], [], running, Moving(1), [])
  }

  lemma CanceledHalfway()
    ensures Leads(Working(2, Some(map["a" := 1]), map["a" := {0}], Moving(1)), Cancel("a"),
                  Stopping(Rendering, Some(0)))
    ensures Leads(Stopping(Rendering, Some(0)), Publish(true), Stopping(Canceled, None))
    ensures QualityReady(Working(2, Some(map["a" := 1]), map["a" := {0}], Moving(1)), "a")
    ensures !QualityReady(Working(2, Some(map["a" := 1]), map["a" := {}], Moving(0)), "a")
    ensures QualityReady(Stopping(Canceled, None), "a")
  {
  }

  /** The quality becomes ready while its job has moved the first of two segments, and it stays ready after that job
      is cancelled. */
  lemma ReadyByLeftover() returns (before: seq<Event>, after: seq<Event>)
    ensures var s, t, u := Run(before), Run(before + [Publish(true)]), Run(before + [Publish(true)] + after);
            && !QualityReady(s, "a")
            && s.running == Some(0) && |s.jobs| == 1 && s.jobs[0].count == 2 && s.phase == Moving(0)
            && QualityReady(t, "a")
            && QualityReady(u, "a") && |u.jobs| == 1 && u.jobs[0].state == Canceled && u.running == None
  {
    hide Leads, Run, Asked;
    before := LeftRun();
    AskedIs(2, Left());
    var stale, none, empty, full := Some(map["a" := 1]), map[], map["a" := {}], map["a" := {0}];
    Begun(2, stale);
    CanceledHalfway();
    Then(before, Left(), Start([Wanted("a", 2)], true), Asked(2, stale));
    before := before + [Start([Wanted("a", 2)], true)];
    Then(before, Asked(2, stale), Dispatch, Working(2, stale, none, Driving));
    before := before + [Dispatch];
    Then(before, Working(2, stale, none, Driving), Drive(true), Working(2, stale, none, Resetting));
    before := before + [Drive(true)];
    Then(before, Working(2, stale, none, Resetting), Publish(true), Working(2, stale, none, Making));
    before := before + [Publish(true)];
    Then(before, Working(2, stale, none, Making), Publish(true), Working(2, stale, empty, Moving(0)));
    before := before + [Publish(true)];
    Then(before, Working(2, stale, empty, Moving(0)), Publish(true), Working(2, stale, full, Moving(1)));
    var es := before + [Publish(true)];
    Then(es, Working(2, stale, full, Moving(1)), Cancel("a"), Stopping(Rendering, Some(0)));
    Then(es + [Cancel("a")], Stopping(Rendering, Some(0)), Publish(true), Stopping(Canceled, None));
    after := [Cancel("a")] + [Publish(true)];
    assert es + after == es + [Cancel("a")] + [Publish(true)];
  }
}
