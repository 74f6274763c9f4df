/** The transfer as the browser holds it: shared variables that every callback changes in place. Each
    callback is one step of the protocol in module Transfer, so what is proved there of all runs is
    true of this object (next-frontend/app/lib/workerConnection.ts, downloadWorkerLocalFile). */
module DownloadObject {
  import opened Basics
  import opened ByteRanges
  import T = Transfer
  import TransferSafety

  class Download {
    const picked: bool
    const max: nat
    ghost const setup: T.Setup
    var parts: seq<Part>
    var runners: seq<T.Runner>
    var registered: map<nat, nat>
    var controllers: map<nat, nat>
    var started: bool
    var disk: seq<Byte>
    var blobs: map<nat, seq<Byte>>
    var totalReceived: nat
    var special: bool
    var phase2: bool
    var outcome: T.Outcome

    ghost function Now(): T.State
      reads this
    {
      T.State(parts, runners, registered, controllers, started, disk, blobs, totalReceived, special, phase2, outcome)
    }

    ghost predicate Valid()
      reads this
    {
      picked == setup.picked && max == setup.max && T.Linked(Now())
    }

    // What has been received is in memory or in the target, at its place, and the rest of the target is as it was.
    ghost predicate Sound()
      reads this
    {
      TransferSafety.Sound(Now(), setup)
    }

    constructor (parts: seq<Part>, existing: seq<Byte>, picked: bool, max: nat, ghost source: seq<Byte>)
      ensures Valid() && setup == T.Setup(source, existing, picked, max) && Now() == T.Initial(parts, setup)
    {
      this.picked, this.max, setup := picked, max, T.Setup(source, existing, picked, max);
      this.parts, runners, registered, controllers, started := parts, [], map[], map[], false;
      disk, blobs, totalReceived := existing, map[], 0;
      special, phase2, outcome := false, false, T.Running;
    }

    // ---- inside downloadPart ----

    method Cleanup(r: nat, status: Status, special: bool)
      requires T.Has(Now(), r)
      modifies this
      ensures Now() == T.End(old(Now()), r, old(runners[r]), status, special)
    {
      var x := runners[r];
      registered := registered - {x.part};
      controllers := controllers - {x.part};
      parts := parts[x.part := parts[x.part].(status := status)];
      if status == Failed {
        parts := parts[x.part := parts[x.part].(lastAuto := x.flag.autoRestarts)];
      }
      runners := runners[r := x.(stage := T.Ended)];
      if special && x.observed {
        this.special := true;
      }
    }

    method BeginAttempt(r: nat, attempt: nat)
      requires T.Has(Now(), r)
      modifies this
      ensures Now() == T.BeginAttempt(old(Now()), r, attempt)
    {
      var x := runners[r];
      var p := parts[x.part];
      if attempt > T.PART_MAX_ATTEMPTS {
        Cleanup(r, Failed, false);
      } else if p.start + p.received > p.end {
        Cleanup(r, Completed, false);
      } else {
        controllers := controllers[x.part := r];
        runners := runners[r := x.(flag := x.flag.(requested := false), attempt := attempt, aborted := false,
                                   stage := T.Connecting, position := p.start + p.received,
                                   connections := x.connections + 1)];
      }
    }

    method DownloadPart(i: nat, initialAutoRestarts: nat, observed: bool)
      requires i < |parts|
      modifies this
      ensures Now() == T.Start(old(Now()), i, initialAutoRestarts, observed, max)
    {
      parts := parts[i := parts[i].(status := Downloading)];
      var flag := T.Flag(false, initialAutoRestarts, initialAutoRestarts + max);
      registered := registered[i := |runners|];
      controllers := controllers[i := |runners|];
      runners := runners + [T.Runner(i, observed, flag, 0, false, T.Waiting, 0, 0, 0, 0)];
      BeginAttempt(|runners| - 1, 1);
    }

    method ReconnectVoluntarily(r: nat)
      requires T.Has(Now(), r)
      modifies this
      ensures Now() == T.Voluntary(old(Now()), r)
    {
      var x := runners[r];
      runners := runners[r := x.(flag := x.flag.(requested := false), attempt := 0, stage := T.Waiting)];
    }

    method CountFailure(r: nat)
      requires T.Has(Now(), r)
      modifies this
      ensures Now() == T.Consume(old(Now()), r)
    {
      var x := runners[r];
      var y := x.(flag := x.flag.(autoRestarts := x.flag.autoRestarts + 1), stage := T.Waiting);
      ghost var was := runners;
      runners := runners[r := y];
      assert runners[r := y.(stage := T.Ended)] == was[r := y.(stage := T.Ended)];
      if y.flag.autoRestarts >= y.flag.limit {
        Cleanup(r, Failed, false);
      } else if x.attempt == T.PART_MAX_ATTEMPTS {
        Cleanup(r, Failed, false);
      }
    }

    method BreakStream(r: nat)
      requires T.Has(Now(), r)
      modifies this
      ensures Now() == T.StreamError(old(Now()), r)
    {
      if runners[r].flag.requested {
        ReconnectVoluntarily(r);
      } else {
        CountFailure(r);
      }
    }

    method Receive(r: nat, reply: T.Reply)
      requires T.Has(Now(), r)
      modifies this
      ensures Now() == T.OnHeaders(old(Now()), r, reply)
    {
      var x := runners[r];
      match reply
      case Partial =>
        runners := runners[r := x.(stage := T.Reading)];
      case Aborted =>
        if !x.aborted {
          runners := runners[r := x.(silent := x.silent + 1)];
        }
        ReconnectVoluntarily(r);
      case Unreachable => CountFailure(r);
      case Html => CountFailure(r);
      case Whole => Cleanup(r, Failed, true);
      case WrongRange => Cleanup(r, Failed, true);
      case BadStatus =>
        if x.attempt == T.PART_MAX_ATTEMPTS {
          Cleanup(r, Failed, false);
        } else {
          runners := runners[r := x.(stage := T.Waiting)];
        }
    }

    method WriteChunk(r: nat)
      requires T.Has(Now(), r) && runners[r].stage.Writing?
      modifies this
      ensures Now() == T.Store(old(Now()), r)
    {
      var x := runners[r];
      var p := parts[x.part];
      if x.stage.target.Some? {
        disk := T.WriteAt(disk, x.stage.target.value, x.stage.chunk);
      } else {
        blobs := blobs[x.part := T.BlobOf(blobs, x.part) + x.stage.chunk];
      }
      parts := parts[x.part := p.(received := p.received + |x.stage.chunk|)];
      totalReceived := totalReceived + |x.stage.chunk|;
      runners := runners[r := x.(stage := T.Reading)];
    }

    method CheckSpeed(r: nat, slow: bool)
      requires T.Has(Now(), r)
      modifies this
      ensures Now() == T.CheckSpeed(old(Now()), r, slow)
    {
      if slow {
        var x := runners[r];
        if x.flag.autoRestarts >= x.flag.limit {
          BreakStream(r);
        } else {
          var flag := x.flag.(autoRestarts := x.flag.autoRestarts + 1, requested := true);
          runners := runners[r := x.(flag := flag, aborted := true)];
          ReconnectVoluntarily(r);
        }
      }
    }

    // ---- the callbacks ----

    method OnHeaders(r: nat, reply: T.Reply)
      requires Valid() && T.Enabled(Now(), T.Headers(r, reply), setup)
      modifies this
      ensures Valid() && Now() == T.Step(old(Now()), T.Headers(r, reply), setup)
      ensures old(Sound()) ==> Sound()
    {
      hide T.Linked, TransferSafety.Sound;
      T.StepLinked(Now(), T.Headers(r, reply), setup);
      Stays(Now(), T.Headers(r, reply), setup);
      Receive(r, reply);
    }

    method OnChunk(r: nat, bytes: seq<Byte>)
      requires Valid() && T.Enabled(Now(), T.Chunk(r, bytes), setup)
      modifies this
      ensures Valid() && Now() == T.Step(old(Now()), T.Chunk(r, bytes), setup)
      ensures old(Sound()) ==> Sound()
    {
      hide T.Linked, TransferSafety.Sound;
      T.StepLinked(Now(), T.Chunk(r, bytes), setup);
      Stays(Now(), T.Chunk(r, bytes), setup);
      var x := runners[r];
      var p := parts[x.part];
      var target := if started && picked then Some(p.start + p.received) else None;
      runners := runners[r := x.(stage := T.Writing(bytes, target), position := x.position + |bytes|)];
    }

    method OnWritten(r: nat, slow: bool)
      requires Valid() && T.Enabled(Now(), T.Written(r, slow), setup)
      modifies this
      ensures Valid() && Now() == T.Step(old(Now()), T.Written(r, slow), setup)
      ensures old(Sound()) ==> Sound()
    {
      hide T.Linked, TransferSafety.Sound;
      T.StepLinked(Now(), T.Written(r, slow), setup);
      Stays(Now(), T.Written(r, slow), setup);
      WriteChunk(r);
      CheckSpeed(r, slow);
    }

    method OnWriteFailed(r: nat, landed: nat)
      requires Valid() && T.Enabled(Now(), T.WriteFailed(r, landed), setup)
      modifies this
      ensures Valid() && Now() == T.Step(old(Now()), T.WriteFailed(r, landed), setup)
      ensures old(Sound()) ==> Sound()
    {
      hide T.Linked, TransferSafety.Sound;
      T.StepLinked(Now(), T.WriteFailed(r, landed), setup);
      Stays(Now(), T.WriteFailed(r, landed), setup);
      disk := T.WriteAt(disk, runners[r].stage.target.value, runners[r].stage.chunk[..landed]);
      BreakStream(r);
    }

    method OnDone(r: nat)
      requires Valid() && T.Enabled(Now(), T.Finish(r), setup)
      modifies this
      ensures Valid() && Now() == T.Step(old(Now()), T.Finish(r), setup)
      ensures old(Sound()) ==> Sound()
    {
      hide T.Linked, TransferSafety.Sound;
      T.StepLinked(Now(), T.Finish(r), setup);
      Stays(Now(), T.Finish(r), setup);
      if runners[r].flag.requested {
        ReconnectVoluntarily(r);
      } else {
        Cleanup(r, Completed, false);
      }
    }

    method OnBreak(r: nat)
      requires Valid() && T.Enabled(Now(), T.Break(r), setup)
      modifies this
      ensures Valid() && Now() == T.Step(old(Now()), T.Break(r), setup)
      ensures old(Sound()) ==> Sound()
    {
      hide T.Linked, TransferSafety.Sound;
      T.StepLinked(Now(), T.Break(r), setup);
      Stays(Now(), T.Break(r), setup);
      BreakStream(r);
    }

    method OnAbort(r: nat)
      requires Valid() && T.Enabled(Now(), T.AbortRead(r), setup)
      modifies this
      ensures Valid() && Now() == T.Step(old(Now()), T.AbortRead(r), setup)
      ensures old(Sound()) ==> Sound()
    {
      hide T.Linked, TransferSafety.Sound;
      T.StepLinked(Now(), T.AbortRead(r), setup);
      Stays(Now(), T.AbortRead(r), setup);
      ReconnectVoluntarily(r);
    }

    method OnWake(r: nat)
      requires Valid() && T.Enabled(Now(), T.Wake(r), setup)
      modifies this
      ensures Valid() && Now() == T.Step(old(Now()), T.Wake(r), setup)
      ensures old(Sound()) ==> Sound()
    {
      hide T.Linked, TransferSafety.Sound;
      T.StepLinked(Now(), T.Wake(r), setup);
      Stays(Now(), T.Wake(r), setup);
      BeginAttempt(r, runners[r].attempt + 1);
    }

    method Refresh(q: nat, r: nat)
      requires T.Has(Now(), q) && T.Has(Now(), r)
      modifies this
      ensures Now() == T.Refresh(old(Now()), q, r, max)
    {
      var x := runners[q];
      var flag := T.Flag(true, x.flag.autoRestarts, x.flag.autoRestarts + max);
      runners := runners[q := x.(flag := flag, clicks := x.clicks + 1)];
      var y := runners[r];
      runners := runners[r := y.(aborted := true, clicks := y.clicks + if q == r then 0 else 1)];
    }

    method RestartPart(i: nat)
      requires Valid() && T.Enabled(Now(), T.Click(i), setup)
      modifies this
      ensures Valid() && Now() == T.Step(old(Now()), T.Click(i), setup)
      ensures old(Sound()) ==> Sound()
    {
      T.StepLinked(Now(), T.Click(i), setup);
      Stays(Now(), T.Click(i), setup);
      if i in registered && i in controllers {
        assert T.Calls(Now(), i, registered[i]) && T.Calls(Now(), i, controllers[i]);
        Refresh(registered[i], controllers[i]);
      } else if i < |parts| && parts[i].status != Completed {
        DownloadPart(i, parts[i].lastAuto, false);
      }
    }

    // ---- the orchestration ----

    method StartParts(failedOnly: bool)
      requires max == setup.max
      modifies this
      ensures Now() == T.StartFrom(old(Now()), 0, failedOnly, setup)
    {
      ghost var was := Now();
      var i := 0;
      while i < |parts|
        invariant 0 <= i <= |parts| == |was.parts|
        invariant T.StartFrom(Now(), i, failedOnly, setup) == T.StartFrom(was, 0, failedOnly, setup)
        decreases |was.parts| - i
      {
        if failedOnly {
          if parts[i].status == Failed {
            DownloadPart(i, parts[i].lastAuto, true);
          }
        } else if parts[i].status != Completed {
          DownloadPart(i, 0, true);
        }
        i := i + 1;
      }
    }

    method Open()
      requires Valid() && T.Enabled(Now(), T.Open, setup)
      modifies this
      ensures Valid() && Now() == T.Step(old(Now()), T.Open, setup)
      ensures old(Sound()) && old(registered) == map[] ==> Sound()
    {
      hide T.Linked, TransferSafety.Sound;
      T.StepLinked(Now(), T.Open, setup);
      Stays(Now(), T.Open, setup);
      started := true;
      StartParts(false);
    }

    method Assemble() returns (content: seq<Byte>)
      ensures content == T.Assemble(blobs, |parts|)
    {
      content := [];
      for i := 0 to |parts|
        invariant content == T.Assemble(blobs, i)
      {
        content := content + T.BlobOf(blobs, i);
      }
    }

    method Every(completed: bool) returns (yes: bool)
      ensures completed ==> (yes <==> T.AllCompleted(Now()))
      ensures !completed ==> (yes <==> !T.SomeActive(Now()))
    {
      for i := 0 to |parts|
        invariant forall j :: 0 <= j < i ==>
                    if completed then parts[j].status == Completed
                    else parts[j].status != Downloading && parts[j].status != Pending
      {
        var status := parts[i].status;
        if completed && status != Completed {
          return false;
        }
        if !completed && (status == Downloading || status == Pending) {
          return false;
        }
      }
      return true;
    }

    method Poll()
      requires Valid() && T.Enabled(Now(), T.Poll, setup)
      modifies this
      ensures Valid() && Now() == T.Step(old(Now()), T.Poll, setup)
      ensures old(Sound()) ==> Sound()
    {
      hide T.Linked, TransferSafety.Sound;
      T.StepLinked(Now(), T.Poll, setup);
      Stays(Now(), T.Poll, setup);
      if special {
        outcome := T.Stopped;
        return;
      }
      var done := Every(true);
      if done {
        if started && picked {
          outcome := T.Finalized(disk);
        } else {
          var content := Assemble();
          outcome := T.Finalized(content);
        }
        return;
      }
      var idle := Every(false);
      if idle && !phase2 {
        phase2 := true;
        StartParts(true);
      }
    }
  }

  lemma Stays(s: T.State, e: T.Event, u: T.Setup)
    requires T.Enabled(s, e, u)
    ensures TransferSafety.Sound(s, u) && (e.Open? ==> s.registered == map[]) ==>
              TransferSafety.Sound(T.Step(s, e, u), u)
  {
    hide TransferSafety.Sound, T.Enabled, T.Step;
    if TransferSafety.Sound(s, u) && (e.Open? ==> s.registered == map[]) {
      TransferSafety.StepSound(s, e, u);
    }
  }

  /** Cutting the file and setting up the shared variables: what BuildParts returns is what the protocol starts from.
      No object means a file that is fetched as a single stream. */
  method Begin(size: nat, requested: int, maxParts: nat, minSize: nat, existing: seq<Byte>, picked: bool, max: nat,
               ghost source: seq<Byte>) returns (download: Download?)
    requires size == |source| && maxParts > 0 && minSize > 0
    ensures download != null ==>
              && fresh(download) && download.Valid() && download.setup == T.Setup(source, existing, picked, max)
              && |download.parts| > 1 && download.Now() == T.Initial(download.parts, download.setup)
              && T.Fresh(download.parts, download.setup)
  {
    var parts := BuildParts(size, requested, maxParts, minSize);
    if |parts| <= 1 {
      return null;
    }
    download := new Download(parts, existing, picked, max, source);
  }
}
