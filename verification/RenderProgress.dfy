/** That asking for a pre-render comes to something (python-worker/streamlift_worker/renders.py): what is queued, how a
    job gets from the queue to a ready quality, and what a cancel and a delete do to it. */
module RenderProgress {
  import opened Basics
  import opened RenderStore

  ghost predicate UnderWay(s: State, q: string) {
    q in s.registered && s.registered[q] < |s.jobs| && Active(s.jobs[s.registered[q]])
  }

  // ---- asking ----

  lemma StartJobKeeps(s: State, q: string, count: nat, space: bool, other: string)
    ensures var t := StartJob(s, q, count, space);
            && |s.jobs| <= |t.jobs| <= |s.jobs| + 1 && t.jobs[..|s.jobs|] == s.jobs
            && (QualityReady(t, other) <==> QualityReady(s, other))
            && (UnderWay(s, other) ==> UnderWay(t, other) && t.registered[other] == s.registered[other])
            && (space ==> QualityReady(t, q) || UnderWay(t, q))
            && (!space || QualityReady(s, q) || UnderWay(s, q) ==> t.jobs == s.jobs && t.queue == s.queue)
            && (space && !QualityReady(s, q) && !UnderWay(s, q) ==>
                  && t.jobs == s.jobs + [Job(q, count, Queued, false)] && t.queue == s.queue + [|s.jobs|]
                  && t.registered[q] == |s.jobs|)
  {
    var t := StartJob(s, q, count, space);
    assert t.jobs[..|s.jobs|] == s.jobs;
    if UnderWay(s, other) {
      assert t.jobs[s.registered[other]] == s.jobs[s.registered[other]];
    }
  }

  /** When there is space, every quality that was asked for is ready or under way afterwards, whatever became of earlier
      jobs for it; one that was already ready or under way gets no second job; and without space nothing is queued. */
  lemma {:induction false} StartAccepts(s: State, wanted: seq<Wanted>, space: bool, q: string)
    ensures var t := StartJobs(s, wanted, space);
            && |s.jobs| <= |t.jobs|
            && (QualityReady(t, q) <==> QualityReady(s, q))
            && (UnderWay(s, q) ==> UnderWay(t, q) && t.registered[q] == s.registered[q])
            && (space && (exists k :: 0 <= k < |wanted| && wanted[k].quality == q) ==>
                  QualityReady(t, q) || UnderWay(t, q))
            && (!space ==> t.jobs == s.jobs && t.queue == s.queue)
  {
    hide StartJob, QualityReady, UnderWay;
    if wanted != [] {
      var n := |wanted| - 1;
      StartAccepts(s, wanted[..n], space, q);
      StartJobKeeps(StartJobs(s, wanted[..n], space), wanted[n].quality, wanted[n].count, space, q);
      if k :| 0 <= k < n && wanted[k].quality == q {
        assert wanted[..n][k].quality == q;
      }
    }
  }

  // ---- from the queue to the manifest ----

  ghost function RunFrom(s: State, es: seq<Event>): State {
    if es == [] then s
    else
      var t := RunFrom(s, es[..|es| - 1]);
      if Enabled(t, es[|es| - 1]) then Step(t, es[|es| - 1]) else t
  }

  lemma RunFromSnoc(s: State, es: seq<Event>, e: Event)
    ensures RunFrom(s, es + [e])
            == if Enabled(RunFrom(s, es), e) then Step(RunFrom(s, es), e) else RunFrom(s, es)
  {
    assert (es + [e])[..|es|] == es;
  }

  ghost function Publishing(n: nat): seq<Event> {
    if n == 0 then [] else Publishing(n - 1) + [Publish(true)]
  }

  // The job has moved the first segments and nothing else.
  ghost predicate Moved(s: State, id: nat, i: nat) {
    && s.running == Some(id) && id < |s.jobs| && s.phase == Moving(i) && s.jobs[id].state == Rendering
    && !s.jobs[id].cancel && s.jobs[id].quality in s.dirs
    && forall k :: k in s.dirs[s.jobs[id].quality] <==> 0 <= k < i
  }

  lemma MovesOne(s: State, id: nat, i: nat)
    requires Moved(s, id, i) && i < s.jobs[id].count
    ensures Enabled(s, Publish(true))
    ensures var t := Step(s, Publish(true)); Moved(t, id, i + 1) && t.jobs == s.jobs && t.registered == s.registered
  {
  }

  lemma {:induction false} MovesAll(s: State, id: nat, n: nat)
    requires Moved(s, id, 0) && n <= s.jobs[id].count
    ensures var t := RunFrom(s, Publishing(n)); Moved(t, id, n) && t.jobs == s.jobs && t.registered == s.registered
  {
    hide Step, Enabled, Moved;
    if n > 0 {
      MovesAll(s, id, n - 1);
      MovesOne(RunFrom(s, Publishing(n - 1)), id, n - 1);
      RunFromSnoc(s, Publishing(n - 1), Publish(true));
    }
  }

  // From the moved segments to the entry
  lemma Enters(s: State, id: nat)
    requires id < |s.jobs| && Moved(s, id, s.jobs[id].count) && s.jobs[id].count > 0
    ensures Enabled(s, Publish(true)) && Enabled(Step(s, Publish(true)), Publish(true))
    ensures var t, j := Step(Step(s, Publish(true)), Publish(true)), s.jobs[id];
            && QualityReady(t, j.quality) && t.entries.value[j.quality] == j.count && t.running.None?
            && |t.jobs| == |s.jobs| && t.jobs[id] == j.(state := Ready) && t.registered == s.registered
  {
  }

  // From the queue to an empty directory
  lemma Prepares(s: State, id: nat)
    requires s.running.None? && s.queue == [id] && id < |s.jobs| && !s.jobs[id].cancel && s.jobs[id].count > 0
    ensures var es := [Dispatch] + [Drive(true)] + [Publish(true)] + [Publish(true)];
            var t := RunFrom(s, es);
            Moved(t, id, 0) && t.jobs == s.jobs[id := s.jobs[id].(state := Rendering)] && t.registered == s.registered
  {
    assert RunFrom(s, []) == s;
    var t := Step(s, Dispatch);
    var v := Step(t, Drive(true));
    var w := Step(v, Publish(true));
    assert Moved(Step(w, Publish(true)), id, 0);
    hide Step, Enabled, RunFrom;
    assert [] + [Dispatch] == [Dispatch];
    assert Enabled(s, Dispatch) && Enabled(t, Drive(true))
           && Enabled(v, Publish(true)) && Enabled(w, Publish(true)) by {
      PreparesEnabled(s, id);
    }
    RunFromSnoc(s, [], Dispatch);
    RunFromSnoc(s, [Dispatch], Drive(true));
    RunFromSnoc(s, [Dispatch] + [Drive(true)], Publish(true));
    RunFromSnoc(s, [Dispatch] + [Drive(true)] + [Publish(true)], Publish(true));
  }

  lemma PreparesEnabled(s: State, id: nat)
    requires s.running.None? && s.queue == [id] && id < |s.jobs| && !s.jobs[id].cancel && s.jobs[id].count > 0
    ensures Enabled(s, Dispatch)
    ensures var t := Step(s, Dispatch);
            && Enabled(t, Drive(true))
            && var v := Step(t, Drive(true));
               Enabled(v, Publish(true)) && Enabled(Step(v, Publish(true)), Publish(true))
  {
  }

  ghost function WholeRender(q: string, count: nat): seq<Event> {
    [Start([Wanted(q, count)], true)] + ([Dispatch] + [Drive(true)] + [Publish(true)] + [Publish(true)])
    + Publishing(count) + [Publish(true)] + [Publish(true)]
  }

  /** A quality with segments that is neither ready nor under way, asked for while the worker is idle and rendered
      without a failure, is ready at the end, with all its segments in the manifest. */
  lemma RenderMakesReady(s: State, q: string, count: nat)
    requires s.running.None? && s.queue == [] && count > 0 && !QualityReady(s, q) && !UnderWay(s, q)
    ensures var t := RunFrom(s, WholeRender(q, count));
            && QualityReady(t, q) && t.entries.value[q] == count && t.running.None?
            && q in t.registered && t.registered[q] < |t.jobs| && t.jobs[t.registered[q]].state == Ready
  {
    var id := |s.jobs|;
    var es := [Start([Wanted(q, count)], true)];
    var t := RunFrom(s, es);
    assert t == StartJob(s, q, count, true) by {
      assert RunFrom(s, []) == s && es[..0] == [];
      OneStart(s, q, count);
    }
    StartJobKeeps(s, q, count, true, q);
    hide RunFrom, Step, Enabled, StartJob, QualityReady, Moved;
    var front := [Dispatch] + [Drive(true)] + [Publish(true)] + [Publish(true)];
    Prepares(t, id);
    RunFromJoin(s, es, front);
    var v := RunFrom(t, front);
    MovesAll(v, id, count);
    RunFromJoin(s, es + front, Publishing(count));
    var w := RunFrom(v, Publishing(count));
    Enters(w, id);
    RunFromSnoc(s, es + front + Publishing(count), Publish(true));
    RunFromSnoc(s, es + front + Publishing(count) + [Publish(true)], Publish(true));
  }

  lemma OneStart(s: State, q: string, count: nat)
    ensures StartJobs(s, [Wanted(q, count)], true) == StartJob(s, q, count, true)
  {
    hide StartJob;
    assert [Wanted(q, count)][..0] == [];
  }

  lemma {:induction false} RunFromJoin(s: State, a: seq<Event>, b: seq<Event>)
    ensures RunFrom(s, a + b) == RunFrom(RunFrom(s, a), b)
  {
    hide Step, Enabled;
    if b == [] {
      assert a + b == a;
    } else {
      var n := |b| - 1;
      RunFromJoin(s, a, b[..n]);
      assert (a + b)[..|a + b| - 1] == a + b[..n];
    }
  }

  // ---- cancelling and deleting ----

  /** A cancelled job is over at once if it is still queued, and at its next step otherwise, unless all its segments
      have been moved; the manifest is left as it is. */
  lemma CancelEnds(s: State, q: string)
    requires UnderWay(s, q)
    ensures var t, id := Step(s, Cancel(q)), s.registered[q];
            && |t.jobs| == |s.jobs| && t.jobs[id].cancel && t.entries == s.entries && t.dirs == s.dirs
            && (s.jobs[id].state == Queued ==> t.jobs[id].state == Canceled)
            && (t.running == Some(id) && s.jobs[id].state == Rendering ==>
                  && (t.phase.Driving? ==>
                        forall ok :: var v := Step(t, Drive(ok));
                          v.jobs[id].state == Canceled && v.running.None? && v.entries == s.entries)
                  && (t.phase.Moving? && t.phase.index < t.jobs[id].count ==>
                        forall ok :: var v := Step(t, Publish(ok));
                          v.jobs[id].state == Canceled && v.running.None? && v.entries == s.entries))
  {
  }

  /** The next job in the queue is taken, in the order the qualities were asked for, and rendered unless it was
      cancelled. */
  lemma DispatchTakes(s: State)
    requires Enabled(s, Dispatch) && s.queue[0] < |s.jobs|
    ensures var t, id := Step(s, Dispatch), s.queue[0];
            && t.queue == s.queue[1..] && |t.jobs| == |s.jobs|
            && (s.jobs[id].cancel ==> t.jobs[id].state == Canceled && t.running.None?)
            && (!s.jobs[id].cancel ==> t.jobs[id].state == Rendering && t.running == Some(id) && t.phase.Driving?)
  {
  }

  /** A step of the running job that fails ends the job as failed, and leaves the manifest as it is. */
  lemma FailureEnds(s: State)
    requires s.running.Some? && s.running.value < |s.jobs| && !s.jobs[s.running.value].cancel
    ensures s.phase.Driving? ==>
              var t := Step(s, Drive(false));
              && |t.jobs| == |s.jobs| && t.jobs[s.running.value].state == Failed && t.running.None?
              && t.entries == s.entries
    ensures s.phase.Making? || s.phase.Entering?
            || (s.phase.Moving? && s.phase.index < s.jobs[s.running.value].count) ==>
              var t := Step(s, Publish(false));
              && |t.jobs| == |s.jobs| && t.jobs[s.running.value].state == Failed && t.running.None?
              && t.entries == s.entries
  {
  }

  /** A delete is refused while any job is under way, and lets go through otherwise. */
  lemma DeleteWaits(s: State, q: string)
    ensures Enabled(s, DeleteBegin(q)) <==> forall other :: !UnderWay(s, other)
  {
    if SomeActive(s) {
      var other :| other in s.registered && s.registered[other] < |s.jobs| && Active(s.jobs[s.registered[other]]);
      assert UnderWay(s, other);
    }
  }

  /** A delete that goes through takes the quality away, its files first, and the rest of the store with the last. */
  lemma DeleteRemoves(s: State, k: nat)
    requires Enabled(s, DeleteDir(k))
    ensures var q, t := s.deleters[k].quality, Step(s, DeleteDir(k));
            && q !in t.dirs && Enabled(t, DeleteEntry(k))
            && var v := Step(t, DeleteEntry(k));
               && !HasEntry(v, q) && q !in v.dirs && q !in v.registered && |v.deleters| == |s.deleters| - 1
               && (s.entries.Some? && s.entries.value.Keys <= {q} ==> v.entries.None? && v.dirs == map[])
               && (forall other :: other != q && HasEntry(s, other) ==>
                     HasEntry(v, other) && v.entries.value[other] == s.entries.value[other])
  {
    var q := s.deleters[k].quality;
    if s.entries.Some? && s.entries.value.Keys <= {q} {
      assert s.entries.value - {q} == map[];
    }
    forall other | other != q && HasEntry(s, other)
      ensures s.entries.value - {q} != map[]
    {
      assert other in s.entries.value - {q};
    }
  }
}
