/** The pre-render store of one source file: jobs, the dispatcher, publishing segment by segment, cancelling,
    deleting, and a worker that dies at any moment (python-worker/streamlift_worker/renders.py). Removing a
    directory, replacing a file and rewriting the manifest under its lock are single steps. */
module RenderStore {
  import opened Basics

  datatype JobState = Queued | Rendering | Ready | Failed | Canceled

  // What the running job does next
  datatype Phase = Driving | Resetting | Making | Moving(index: nat) | Entering

  datatype Job = Job(quality: string, count: nat, state: JobState, cancel: bool)

  // A delete request that has passed its check, before and after it removed the directory
  datatype Deleter = Deleter(quality: string, gone: bool)

  // entries: the manifest's qualities with their number of segments; dirs: the segment files on disk
  datatype State = State(entries: Option<map<string, nat>>, dirs: map<string, set<nat>>,
                         jobs: seq<Job>, registered: map<string, nat>, queue: seq<nat>,
                         running: Option<nat>, phase: Phase, deleters: seq<Deleter>)

  // A quality that is asked for, and how many segments it will have
  datatype Wanted = Wanted(quality: string, count: nat)

  // space: one check for everything that is asked for at once; ok: a step that can fail does not
  datatype Event =
    | Start(wanted: seq<Wanted>, space: bool)
    | Cancel(quality: string)
    | Dispatch
    | AudioWritten
    | Drive(ok: bool)
    | Publish(ok: bool)
    | DeleteBegin(quality: string)
    | DeleteDir(k: nat)
    | DeleteEntry(k: nat)
    | Crash

  predicate HasEntry(s: State, q: string) {
    s.entries.Some? && q in s.entries.value
  }

  function Last(n: nat): nat {
    if n == 0 then 0 else n - 1
  }

  // _quality_ready: the manifest names the quality and its last segment is there.
  predicate QualityReady(s: State, q: string) {
    HasEntry(s, q) && q in s.dirs && Last(s.entries.value[q]) in s.dirs[q]
  }

  predicate Active(j: Job) {
    j.state == Queued || j.state == Rendering
  }

  function StartJob(s: State, q: string, count: nat, space: bool): State {
    if QualityReady(s, q) then s
    else if q in s.registered && s.registered[q] < |s.jobs| && Active(s.jobs[s.registered[q]]) then s
    else if !space then s.(registered := s.registered - {q})
    else
      s.(jobs := s.jobs + [Job(q, count, Queued, false)], registered := s.registered[q := |s.jobs|],
         queue := s.queue + [|s.jobs|])
  }

  function StartJobs(s: State, wanted: seq<Wanted>, space: bool): State {
    if wanted == [] then s
    else
      var n := |wanted| - 1;
      StartJob(StartJobs(s, wanted[..n], space), wanted[n].quality, wanted[n].count, space)
  }

  function CancelJob(s: State, q: string): State {
    if q in s.registered && s.registered[q] < |s.jobs| then
      var j := s.jobs[s.registered[q]];
      var state := if j.state == Queued then Canceled else j.state;
      s.(jobs := s.jobs[s.registered[q] := j.(cancel := true, state := state)])
    else s
  }

  function SetState(s: State, id: nat, state: JobState): State
    requires id < |s.jobs|
  {
    s.(jobs := s.jobs[id := s.jobs[id].(state := state)])
  }

  function DispatchNext(s: State): State
    requires s.queue != []
  {
    var id := s.queue[0];
    var t := s.(queue := s.queue[1..]);
    if id >= |s.jobs| then t
    else if s.jobs[id].cancel then SetState(t, id, Canceled)
    else SetState(t, id, Rendering).(running := Some(id), phase := Driving)
  }

  function Finish(s: State, id: nat, state: JobState): State
    requires id < |s.jobs|
  {
    SetState(s, id, state).(running := None)
  }

  // Video, audio and everything else before publishing; a set cancel flag ends it.
  function DriveJob(s: State, id: nat, ok: bool): State
    requires id < |s.jobs|
  {
    if s.jobs[id].cancel then Finish(s, id, Canceled)
    else if !ok || s.jobs[id].count == 0 then Finish(s, id, Failed)
    else s.(phase := Resetting)
  }

  // One step of _publish_quality. Whatever cannot be removed is left to the next step; everything else may fail.
  function PublishStep(s: State, id: nat, ok: bool): State
    requires id < |s.jobs|
  {
    var j := s.jobs[id];
    match s.phase
    case Driving => s
    case Resetting => s.(dirs := s.dirs - {j.quality}, phase := Making)
    case Making =>
      if !ok then Finish(s, id, Failed)
      else s.(dirs := if j.quality in s.dirs then s.dirs else s.dirs[j.quality := {}], phase := Moving(0))
    case Moving(i) =>
      if i >= j.count then s.(phase := Entering)
      else if j.cancel then Finish(s, id, Canceled)
      else if !ok || j.quality !in s.dirs then Finish(s, id, Failed)
      else s.(dirs := s.dirs[j.quality := s.dirs[j.quality] + {i}], phase := Moving(i + 1))
    case Entering =>
      var entries := if s.entries.Some? then s.entries.value else map[];
      if ok then Finish(s, id, Ready).(entries := Some(entries[j.quality := j.count])) else Finish(s, id, Failed)
  }

  function DeleteEntryOf(s: State, q: string): State {
    var t := s.(registered := s.registered - {q});
    if s.entries.None? then t
    else if s.entries.value - {q} == map[] then t.(entries := None, dirs := map[])
    else t.(entries := Some(s.entries.value - {q}))
  }

  predicate SomeActive(s: State) {
    exists q :: q in s.registered && s.registered[q] < |s.jobs| && Active(s.jobs[s.registered[q]])
  }

  predicate Enabled(s: State, e: Event) {
    match e
    case Start(_, _) => true
    case Cancel(_) => true
    case Dispatch => s.running.None? && s.queue != []
    case AudioWritten => s.running.Some? && s.phase == Driving
    case Drive(_) => s.running.Some? && s.running.value < |s.jobs| && s.phase == Driving
    case Publish(_) => s.running.Some? && s.running.value < |s.jobs| && s.phase != Driving
    case DeleteBegin(_) => !SomeActive(s)
    case DeleteDir(k) => k < |s.deleters| && !s.deleters[k].gone
    case DeleteEntry(k) => k < |s.deleters| && s.deleters[k].gone
    case Crash => true
  }

  function Step(s: State, e: Event): State
    requires Enabled(s, e)
  {
    match e
    case Start(wanted, space) => StartJobs(s, wanted, space)
    case Cancel(q) => CancelJob(s, q)
    case Dispatch => DispatchNext(s)
    // the shared audio is entered in the manifest before the first quality is
    case AudioWritten => s.(entries := Some(if s.entries.Some? then s.entries.value else map[]))
    case Drive(ok) => DriveJob(s, s.running.value, ok)
    case Publish(ok) => PublishStep(s, s.running.value, ok)
    case DeleteBegin(q) => s.(deleters := s.deleters + [Deleter(q, false)])
    case DeleteDir(k) =>
      s.(dirs := s.dirs - {s.deleters[k].quality}, deleters := s.deleters[k := s.deleters[k].(gone := true)])
    case DeleteEntry(k) =>
      DeleteEntryOf(s, s.deleters[k].quality).(deleters := s.deleters[..k] + s.deleters[k + 1..])
    // what is on disk stays, everything else is gone
    case Crash => s.(jobs := [], registered := map[], queue := [], running := None, phase := Driving, deleters := [])
  }

  ghost function Initial(): State {
    State(None, map[], [], map[], [], None, Driving, [])
  }

  ghost function Run(es: seq<Event>): State {
    if es == [] then Initial()
    else
      var s := Run(es[..|es| - 1]);
      if Enabled(s, es[|es| - 1]) then Step(s, es[|es| - 1]) else s
  }

  // A directory holds the first segments and no others.
  ghost predicate FirstOnes(files: set<nat>) {
    forall i, j :: i in files && 0 <= j < i ==> j in files
  }

  ghost predicate Sound(s: State) {
    && (forall q :: q in s.dirs ==> FirstOnes(s.dirs[q]))
    && (s.running.Some? ==> s.running.value < |s.jobs|)
    // what the publishing job has moved is exactly what it will not move again
    && (s.running.Some? && s.phase.Moving? ==>
          var q := s.jobs[s.running.value].quality;
          q in s.dirs ==> forall i :: i in s.dirs[q] <==> 0 <= i < s.phase.index)
    && (s.running.Some? && s.phase.Making? ==> s.jobs[s.running.value].quality !in s.dirs)
  }

  // Asking for qualities adds jobs and touches nothing on disk.
  ghost predicate OnlyJobs(s: State, t: State) {
    && t == s.(jobs := t.jobs, registered := t.registered, queue := t.queue)
    && |s.jobs| <= |t.jobs| && t.jobs[..|s.jobs|] == s.jobs
  }

  lemma {:induction false} StartJobsOnly(s: State, wanted: seq<Wanted>, space: bool)
    ensures OnlyJobs(s, StartJobs(s, wanted, space))
  {
    if wanted != [] {
      StartJobsOnly(s, wanted[..|wanted| - 1], space);
    }
  }

  lemma OnlyJobsSound(s: State, t: State)
    requires Sound(s) && OnlyJobs(s, t)
    ensures Sound(t)
  {
    assert s.running.Some? ==> t.jobs[s.running.value] == t.jobs[..|s.jobs|][s.running.value];
  }

  lemma StepSound(s: State, e: Event)
    requires Sound(s) && Enabled(s, e)
    ensures Sound(Step(s, e))
  {
    if e.Start? {
      StartJobsOnly(s, e.wanted, e.space);
      OnlyJobsSound(s, Step(s, e));
    } else if e.Publish? {
      PublishSound(s, e.ok);
    } else {
      hide StartJobs, PublishStep;
    }
  }

  lemma PublishSound(s: State, ok: bool)
    requires Sound(s) && Enabled(s, Publish(ok))
    ensures Sound(PublishStep(s, s.running.value, ok))
  {
  }

  lemma {:induction false} RunSound(es: seq<Event>)
    ensures Sound(Run(es))
  {
    if es != [] {
      var n := |es| - 1;
      RunSound(es[..n]);
      hide Sound, Step, Enabled;
      if Enabled(Run(es[..n]), es[n]) {
        StepSound(Run(es[..n]), es[n]);
      }
    }
  }

  /** At every moment of publishing, cancelling, deleting or crashing: a quality that looks ready, which only its
      last segment is asked for, has every one of its segments. */
  lemma ReadyIsComplete(es: seq<Event>, q: string, i: nat)
    requires QualityReady(Run(es), q) && i < Run(es).entries.value[q]
    ensures i in Run(es).dirs[q]
  {
    RunSound(es);
    assert FirstOnes(Run(es).dirs[q]);
  }

  // The steps that may make a ready quality disappear: publishing it anew, deleting it, or deleting the last one
  ghost predicate Removes(s: State, e: Event, q: string) {
    || (e.Publish? && s.running.Some? && s.running.value < |s.jobs| && s.jobs[s.running.value].quality == q)
    || (e.DeleteDir? && e.k < |s.deleters| && s.deleters[e.k].quality == q)
    || (e.DeleteEntry? && e.k < |s.deleters|
        && (s.deleters[e.k].quality == q || (s.entries.Some? && s.entries.value - {s.deleters[e.k].quality} == map[])))
  }

  /** Nothing else does: a ready quality stays ready through other renders, cancels, deletes of other qualities
      and crashes. */
  lemma ReadyStays(s: State, e: Event, q: string)
    requires Enabled(s, e) && QualityReady(s, q) && !Removes(s, e, q)
    ensures QualityReady(Step(s, e), q)
  {
    if e.Start? {
      StartJobsOnly(s, e.wanted, e.space);
    }
  }

  // The job of the quality writes the manifest, with the last segment in place; ...
  ghost predicate Enters(s: State, q: string) {
    && s.running.Some? && s.running.value < |s.jobs| && s.phase == Entering
    && var j := s.jobs[s.running.value];
       j.quality == q && q in s.dirs && Last(j.count) in s.dirs[q]
  }

  // ... or it moves the segment that an older entry of the quality names as its last.
  ghost predicate MovesStale(s: State, q: string) {
    && s.running.Some? && s.running.value < |s.jobs| && s.phase.Moving?
    && var j := s.jobs[s.running.value];
       && j.quality == q && q in s.dirs && s.phase.index < j.count && !j.cancel
       && HasEntry(s, q) && s.phase.index == Last(s.entries.value[q])
  }

  /** A quality that is not ready yet becomes ready exactly when its job writes the manifest, after the last segment,
      or when an entry was left behind and its job moves the segment that entry names as the last one. */
  lemma BecomesReadyIff(s: State, e: Event, q: string)
    requires Enabled(s, e) && !QualityReady(s, q)
    ensures QualityReady(Step(s, e), q) <==> e.Publish? && e.ok && (Enters(s, q) || MovesStale(s, q))
  {
    if e.Start? {
      StartJobsOnly(s, e.wanted, e.space);
    }
  }

  lemma MovedAll(s: State, j: Job)
    requires Sound(s) && s.running.Some? && s.jobs[s.running.value] == j
    requires s.phase == Moving(j.count) && j.quality in s.dirs
    ensures forall i :: 0 <= i < j.count ==> i in s.dirs[j.quality]
  {
  }

  // Nothing happens before step n; the one happens before the other.
  predicate Later(at: Option<nat>, n: nat) {
    at.Some? ==> n <= at.value
  }

  predicate Before(at: Option<nat>, other: Option<nat>) {
    at.Some? && (other.Some? ==> at.value < other.value)
  }

  // ---- the store as the worker changes it ----

  class Store {
    var entries: Option<map<string, nat>>
    var dirs: map<string, set<nat>>
    var jobs: seq<Job>
    var registered: map<string, nat>
    var queue: seq<nat>
    var running: Option<nat>
    var phase: Phase
    var deleters: seq<Deleter>

    function Now(): State
      reads this
    {
      State(entries, dirs, jobs, registered, queue, running, phase, deleters)
    }

    constructor ()
      ensures Now() == Initial() && Sound(Now())
    {
      entries, dirs, jobs, registered := None, map[], [], map[];
      queue, running, phase, deleters := [], None, Driving, [];
    }

    method StartOne(quality: string, count: nat, space: bool)
      modifies this
      ensures Now() == StartJob(old(Now()), quality, count, space)
    {
      if QualityReady(Now(), quality) {
        return;
      }
      if quality in registered && registered[quality] < |jobs| && Active(jobs[registered[quality]]) {
        return;
      }
      if !space {
        registered := registered - {quality};
        return;
      }
      registered := registered[quality := |jobs|];
      queue := queue + [|jobs|];
      jobs := jobs + [Job(quality, count, Queued, false)];
    }

    method Start(wanted: seq<Wanted>, space: bool)
      modifies this
      ensures Now() == Step(old(Now()), Event.Start(wanted, space))
    {
      for i := 0 to |wanted|
        invariant Now() == StartJobs(old(Now()), wanted[..i], space)
      {
        assert wanted[..i + 1][..i] == wanted[..i];
        StartOne(wanted[i].quality, wanted[i].count, space);
      }
      assert wanted[..|wanted|] == wanted;
    }

    method Cancel(quality: string)
      modifies this
      ensures Now() == Step(old(Now()), Event.Cancel(quality))
    {
      if quality in registered && registered[quality] < |jobs| {
        var id := registered[quality];
        var queued := jobs[id].state == Queued;
        jobs := jobs[id := jobs[id].(cancel := true)];
        if queued {
          jobs := jobs[id := jobs[id].(state := Canceled)];
        }
      }
    }

    method End(id: nat, state: JobState)
      requires id < |jobs|
      modifies this
      ensures Now() == Finish(old(Now()), id, state)
    {
      jobs := jobs[id := jobs[id].(state := state)];
      running := None;
    }

    // An empty directory for the quality, whatever was there before
    method Prepare()
      requires Sound(Now()) && running.Some? && phase == Resetting
      modifies this`dirs, this`phase
      ensures Sound(Now()) && running.value < |jobs| && phase == Moving(0)
      ensures dirs == old(dirs)[jobs[running.value].quality := {}]
    {
      var q := jobs[running.value].quality;
      dirs := dirs - {q};
      phase := Making;
      dirs := dirs[q := {}];
      phase := Moving(0);
    }

    method MoveSegment()
      requires Sound(Now()) && running.Some? && phase.Moving?
      requires phase.index < jobs[running.value].count && !jobs[running.value].cancel
      requires jobs[running.value].quality in dirs
      modifies this`dirs, this`phase
      ensures Sound(Now()) && Now() == Step(old(Now()), Publish(true))
      ensures phase == Moving(old(phase).index + 1) && dirs.Keys == old(dirs).Keys
    {
      StepSound(Now(), Publish(true));
      hide Sound;
      var q := jobs[running.value].quality;
      dirs := dirs[q := dirs[q] + {phase.index}];
      phase := Moving(phase.index + 1);
    }

    /** _publish_quality with nobody deleting in between: unless it is cancelled or a step fails, every segment ends
        up in the store, in order, and only then the manifest names the quality. */
    method PublishQuality(cancelAt: Option<nat>, failAt: Option<nat>, written: bool) returns (published: bool)
      requires Sound(Now()) && running.Some? && phase == Resetting
      requires jobs[running.value].count > 0 && !jobs[running.value].cancel
      modifies this
      ensures running == None
      ensures var j := old(jobs[running.value]);
              && (published <==> Later(cancelAt, j.count) && Later(failAt, j.count) && written)
              && (published ==> QualityReady(Now(), j.quality) && entries.value[j.quality] == j.count
                                && forall i :: 0 <= i < j.count ==> i in dirs[j.quality])
              && (!published ==> entries == old(entries))
              && |jobs| == old(|jobs|)
              && var canceled := !Later(cancelAt, j.count) && !Before(failAt, cancelAt);
                 jobs[old(running.value)].state == if published then Ready else if canceled then Canceled else Failed
    {
      var id, j := running.value, jobs[running.value];
      hide Sound, QualityReady, Step, Enabled, PublishStep;
      Prepare();
      for i := 0 to j.count
        invariant Sound(Now()) && running == Some(id) && phase == Moving(i) && j.quality in dirs
        invariant id < |jobs| && jobs == old(jobs) && entries == old(entries)
        invariant Later(cancelAt, i) && Later(failAt, i)
      {
        if cancelAt == Some(i) {
          End(id, Canceled);
          return false;
        }
        if failAt == Some(i) {
          End(id, Failed);
          return false;
        }
        MoveSegment();
      }
      MovedAll(Now(), j);
      phase := Entering;
      published := Enter(written);
    }

    // The manifest names the quality, if it can be written.
    method Enter(written: bool) returns (published: bool)
      requires running.Some? && running.value < |jobs| && phase == Entering
      modifies this
      ensures Now() == Step(old(Now()), Publish(written)) && published == written
      ensures dirs == old(dirs) && running == None && |jobs| == old(|jobs|)
      ensures jobs[old(running.value)].state == if written then Ready else Failed
      ensures var j := old(jobs[running.value]);
              if !written then entries == old(entries)
              else entries.Some? && j.quality in entries.value && entries.value[j.quality] == j.count
                   && (j.count > 0 && j.quality in dirs && j.count - 1 in dirs[j.quality] ==>
                         QualityReady(Now(), j.quality))
    {
      var id, j := running.value, jobs[running.value];
      if !written {
        End(id, Failed);
        return false;
      }
      End(id, Ready);
      var named := if entries.Some? then entries.value else map[];
      entries := Some(named[j.quality := j.count]);
      return true;
    }

    // delete, once its check has passed: the directory first, then the manifest
    method Delete(k: nat)
      requires k < |deleters| && !deleters[k].gone
      modifies this
      ensures Now() == Step(Step(old(Now()), DeleteDir(k)), DeleteEntry(k))
    {
      var q := deleters[k].quality;
      ghost var after := Step(Now(), DeleteDir(k));
      dirs := dirs - {q};
      assert after.deleters[..k] == deleters[..k] && after.deleters[k + 1..] == deleters[k + 1..];
      deleters := deleters[..k] + deleters[k + 1..];
      registered := registered - {q};
      if entries.Some? {
        var qualities := entries.value - {q};
        if qualities == map[] {
          entries := None;
          dirs := map[];
        } else {
          entries := Some(qualities);
        }
      }
    }
  }
}
