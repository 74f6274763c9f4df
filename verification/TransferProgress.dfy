/** That the parallel download gets on (next-frontend/app/lib/workerConnection.ts, downloadWorkerLocalFile): when a
    call goes on after a failure and when it gives up, exactly, and how many failures a call survives. */
module TransferProgress {
  import opened Basics
  import opened ByteRanges
  import opened Transfer
  import opened TransferSafety

  // ---- one step of one call ----

  // The call is still the same call, at the same bytes, and about to connect again.
  ghost predicate GoesOn(s: State, r: nat, t: State) {
    && Has(s, r) && Has(t, r) && t.parts == s.parts && t.runners[r].part == s.runners[r].part
    && t.runners[r].stage.Waiting? && !t.runners[r].flag.requested
    && t.registered == s.registered && t.controllers == s.controllers
  }

  ghost predicate GivesUp(s: State, r: nat, t: State) {
    && Has(s, r) && Has(t, r) && t.runners[r].stage.Ended?
    && var i := s.runners[r].part;
       i < |t.parts| && t.parts[i].status == Failed && t.parts[i].received == s.parts[i].received && i !in t.registered
  }

  ghost predicate Failure(s: State, e: Event) {
    || ((e.Break? || e.WriteFailed?) && Has(s, e.r) && !s.runners[e.r].flag.requested)
    || (e.Headers? && (e.reply.Unreachable? || e.reply.Html?))
  }

  // Whether the next failure is one too many
  predicate Spent(x: Runner) {
    x.flag.autoRestarts + 1 >= x.flag.limit || x.attempt == PART_MAX_ATTEMPTS
  }

  // One restart is used up, and the call waits for its next attempt.
  ghost predicate Retries(s: State, r: nat, t: State) {
    && Has(s, r) && t.parts == s.parts && t.registered == s.registered && |t.runners| == |s.runners|
    && var x, y := s.runners[r], t.runners[r];
       && y.stage.Waiting? && y.attempt == x.attempt && y.part == x.part
       && y.flag == x.flag.(autoRestarts := x.flag.autoRestarts + 1)
  }

  lemma ConsumeSpends(s: State, r: nat)
    requires Has(s, r)
    ensures var x, t := s.runners[r], Consume(s, r);
            && t.outcome == s.outcome
            && if Spent(x) then GivesUp(s, r, t) && t.parts[x.part].lastAuto == x.flag.autoRestarts + 1
               else Retries(s, r, t)
  {
  }

  /** A broken body, a failed write, an unreachable host and an HTML page end the call if it has no restart left or is
      at its last attempt, and leave the count of restarts for the next call; otherwise one restart is used up and the
      call goes on. */
  lemma FailureSpends(s: State, e: Event, u: Setup)
    requires Enabled(s, e, u) && Failure(s, e)
    ensures var x, t := s.runners[e.r], Step(s, e, u);
            && t.outcome == Running
            && if x.flag.autoRestarts + 1 >= x.flag.limit || x.attempt == PART_MAX_ATTEMPTS then
                 GivesUp(s, e.r, t) && t.parts[x.part].lastAuto == x.flag.autoRestarts + 1
               else Retries(s, e.r, t)
  {
    hide WriteAt, Consume, GivesUp, Retries;
    ConsumeSpends(s, e.r);
    if e.WriteFailed? {
      var l := LoseWrite(s, e.r, e.landed);
      ConsumeSpends(l, e.r);
      SameButDisk(s, l, e.r, Consume(l, e.r));
    }
  }

  lemma SameButDisk(s: State, l: State, r: nat, t: State)
    requires Has(s, r) && l == s.(disk := l.disk)
    ensures GivesUp(l, r, t) == GivesUp(s, r, t) && Retries(l, r, t) == Retries(s, r, t)
  {
  }

  /** The next thing a waiting call does is to ask for the rest of its part, from the first byte it lacks; without such
      a byte the part is completed. */
  lemma WakeConnects(s: State, r: nat, u: Setup)
    requires Enabled(s, Wake(r), u) && s.runners[r].attempt < PART_MAX_ATTEMPTS
    ensures var x, p, t := s.runners[r], s.parts[s.runners[r].part], Step(s, Wake(r), u);
            r < |t.runners| &&
            if p.start + p.received > p.end then t.runners[r].stage.Ended? && t.parts[x.part].status == Completed
            else
              && t.parts == s.parts && t.runners[r].stage.Connecting? && t.runners[r].part == x.part
              && t.runners[r].position == p.start + p.received && t.runners[r].attempt == x.attempt + 1
              && t.runners[r].flag == x.flag.(requested := false) && !t.runners[r].aborted
  {
  }

  // The call is asking for the bytes from this one on.
  ghost predicate AsksFrom(s: State, r: nat, position: nat) {
    r < |s.runners| && s.runners[r].stage.Connecting? && s.runners[r].position == position
  }

  /** So after such a failure the call connects again where its bytes end, exactly unless it had to give up. */
  lemma RetryConnects(s: State, e: Event, u: Setup)
    requires Enabled(s, e, u) && Failure(s, e) && s.runners[e.r].attempt <= PART_MAX_ATTEMPTS
    requires var p := s.parts[s.runners[e.r].part]; p.start + p.received <= p.end
    ensures var x, t, p := s.runners[e.r], Step(s, e, u), s.parts[s.runners[e.r].part];
            && (Enabled(t, Wake(e.r), u) <==> x.flag.autoRestarts + 1 < x.flag.limit && x.attempt < PART_MAX_ATTEMPTS)
            && (Enabled(t, Wake(e.r), u) ==>
                  Step(t, Wake(e.r), u).parts == s.parts && AsksFrom(Step(t, Wake(e.r), u), e.r, p.start + p.received))
  {
    hide Step;
    FailureSpends(s, e, u);
    if Enabled(Step(s, e, u), Wake(e.r), u) {
      WakeConnects(Step(s, e, u), e.r, u);
    }
  }

  ghost predicate Reconnect(s: State, e: Event) {
    || e.AbortRead?
    || (e.Headers? && e.reply.Aborted?)
    || ((e.Break? || e.WriteFailed? || e.Finish?) && Has(s, e.r) && s.runners[e.r].flag.requested)
  }

  /** An abort, and every end of a body after a reconnect was asked for, cost nothing: the call starts its attempts
      over, with the restarts it had. */
  lemma ReconnectIsFree(s: State, e: Event, u: Setup)
    requires Enabled(s, e, u) && Reconnect(s, e)
    ensures var x, t := s.runners[e.r], Step(s, e, u);
            && GoesOn(s, e.r, t) && t.runners[e.r].attempt == 0
            && t.runners[e.r].flag == x.flag.(requested := false)
  {
    hide WriteAt;
  }

  /** A body that ends without an error completes the part, unless a reconnect was asked for. */
  lemma FinishCompletes(s: State, r: nat, u: Setup)
    requires Enabled(s, Finish(r), u) && !s.runners[r].flag.requested
    ensures var i, t := s.runners[r].part, Step(s, Finish(r), u);
            && Has(t, r) && t.runners[r].stage.Ended? && i < |t.parts| && t.parts[i].status == Completed
            && t.runners[r].part == i && t.parts[i].received == s.parts[i].received && t.special == s.special
  {
  }

  /** A status that is neither success nor refusal uses up an attempt but no restart; a reply for the wrong range, or
      for all of the file, ends the call, and the whole transfer if the orchestration is waiting for the call. */
  lemma ReplyDecides(s: State, r: nat, reply: Reply, u: Setup)
    requires Enabled(s, Headers(r, reply), u)
    ensures var x, t := s.runners[r], Step(s, Headers(r, reply), u);
            && r < |t.runners|
            && (reply.Partial? ==> t.parts == s.parts && t.runners[r] == x.(stage := Reading) && t.special == s.special)
            && (reply.BadStatus? ==>
                  if x.attempt == PART_MAX_ATTEMPTS then GivesUp(s, r, t)
                  else t.parts == s.parts && t.runners[r] == x.(stage := Waiting))
            && (reply.Whole? || reply.WrongRange? ==>
                  GivesUp(s, r, t) && (t.special <==> s.special || x.observed))
  {
  }

  /** A stored chunk counts where it belongs. If the connection is then found slow, it is dropped for a new one as long
      as a restart is left, and counts as a failure otherwise. */
  lemma WrittenCounts(s: State, r: nat, slow: bool, u: Setup)
    requires Enabled(s, Written(r, slow), u)
    ensures var x, t, n := s.runners[r], Step(s, Written(r, slow), u), |s.runners[r].stage.chunk|;
            var p, q := s.parts[x.part], t.parts[x.part];
            && q.received == p.received + n && t.totalReceived == s.totalReceived + n && Has(t, r)
            && (!slow ==> t.runners[r] == x.(stage := Reading) && q.status == p.status)
            && (slow && x.flag.autoRestarts < x.flag.limit ==>
                  && t.runners[r].stage.Waiting? && t.runners[r].attempt == 0 && q.status == p.status
                  && t.runners[r].flag == Flag(false, x.flag.autoRestarts + 1, x.flag.limit))
            && (slow && x.flag.autoRestarts >= x.flag.limit && !x.flag.requested ==>
                  t.runners[r].stage.Ended? && q.status == Failed)
  {
    hide WriteAt, BlobOf;
  }

  // ---- the user and the loop ----

  /** A click on a part with a live call asks that call to reconnect, gives it a full budget of restarts, and aborts its
      connection; on a part without one that is not completed it starts a call that asks for the part's missing bytes;
      a completed part is left alone. */
  lemma ClickActs(s: State, i: nat, u: Setup)
    requires Sound(s, u) && Enabled(s, Click(i), u) && i < |s.parts|
    ensures var t, p := Step(s, Click(i), u), s.parts[i];
            if i in s.registered then
              var r := s.registered[i];
              && Has(s, r) && Has(t, r) && t.parts == s.parts && t.runners[r].flag.requested && t.runners[r].aborted
              && t.runners[r].flag.limit == s.runners[r].flag.autoRestarts + u.max
              && t.runners[r].stage == s.runners[r].stage
            else if p.status == Completed then t == s
            else if p.start + p.received > p.end then t.parts[i].status == Completed
            else
              var r := |s.runners|;
              && |t.runners| == r + 1 && t.registered == s.registered[i := r] && t.runners[r].part == i
              && t.parts[i].status == Downloading && t.runners[r].stage.Connecting?
              && t.runners[r].position == p.start + p.received && t.runners[r].attempt == 1
              && t.runners[r].flag == Flag(false, p.lastAuto, p.lastAuto + u.max) && !t.runners[r].observed
  {
    if i in s.registered {
      ClickedCall(s, i, u);
    } else {
      SameRegistered(s, u);
    }
    hide Sound;
  }

  /** The loop stops at a refusal, finishes when every part is completed, starts the failed parts once more when nothing
      is being downloaded, and does nothing otherwise. */
  lemma PollDecides(s: State, u: Setup)
    requires Enabled(s, Poll, u)
    ensures var t := Step(s, Poll, u);
            && (t.outcome == Stopped <==> s.special)
            && (t.outcome.Finalized? <==>
                  !s.special && forall i :: 0 <= i < |s.parts| ==> s.parts[i].status == Completed)
            && (t.phase2 && !s.phase2 <==>
                  && !s.special && !s.phase2 && (exists i :: 0 <= i < |s.parts| && s.parts[i].status == Failed)
                  && forall i :: 0 <= i < |s.parts| ==> s.parts[i].status == Completed || s.parts[i].status == Failed)
            && (s.phase2 ==> t.phase2)
            && (t.outcome == Running && t.phase2 == s.phase2 ==> t == s)
            && (t.phase2 && !s.phase2 ==>
                  forall i :: 0 <= i < |s.parts| && s.parts[i].status == Failed ==>
                    Fetches(t, i, s.parts[i], s.parts[i].lastAuto, u.max))
  {
    if !s.special && !AllCompleted(s) && !SomeActive(s) && !s.phase2 {
      forall i | 0 <= i < |s.parts| && s.parts[i].status == Failed
        ensures Fetches(Step(s, Poll, u), i, s.parts[i], s.parts[i].lastAuto, u.max)
      {
        ChosenStarts(s.(phase2 := true), 0, i, true, u);
      }
    }
    hide StartFrom, Fetches;
  }

  /** Opening the target starts every part that is not completed, with a full budget of restarts. */
  lemma OpenStarts(s: State, i: nat, u: Setup)
    requires Enabled(s, Open, u) && i < |s.parts| && s.parts[i].status != Completed
    ensures Step(s, Open, u).started && Fetches(Step(s, Open, u), i, s.parts[i], 0, u.max)
  {
    ChosenStarts(s.(started := true), 0, i, false, u);
    hide StartFrom, Fetches;
  }

  // The part has a call the loop is waiting for, which asks for the rest of the part and has this count of restarts;
  // or there was nothing left to ask for.
  ghost predicate Fetches(s: State, i: nat, p: Part, auto: nat, max: nat) {
    i < |s.parts| &&
    if p.start + p.received > p.end then s.parts[i].status == Completed
    else
      && s.parts[i].status == Downloading && i in s.registered && s.registered[i] < |s.runners|
      && var x := s.runners[s.registered[i]];
         && x.part == i && x.observed && x.stage.Connecting? && x.position == p.start + p.received && x.attempt == 1
         && x.flag == Flag(false, auto, auto + max)
  }

  ghost predicate Chosen(p: Part, failedOnly: bool) {
    if failedOnly then p.status == Failed else p.status != Completed
  }

  ghost function AutoOf(p: Part, failedOnly: bool): nat {
    if failedOnly then p.lastAuto else 0
  }

  ghost function StartNext(s: State, i: nat, failedOnly: bool, max: nat): State
    requires i < |s.parts|
  {
    if Chosen(s.parts[i], failedOnly) then Start(s, i, AutoOf(s.parts[i], failedOnly), true, max) else s
  }

  lemma {:induction false} ChosenStarts(s: State, i: nat, j: nat, failedOnly: bool, u: Setup)
    requires i <= j < |s.parts| && Chosen(s.parts[j], failedOnly)
    ensures Fetches(StartFrom(s, i, failedOnly, u), j, s.parts[j], AutoOf(s.parts[j], failedOnly), u.max)
    decreases j - i
  {
    var t := StartNext(s, i, failedOnly, u.max);
    StartHere(s, i, AutoOf(s.parts[i], failedOnly), u.max);
    StartFromHead(s, i, failedOnly, u);
    if i == j {
      PastStays(t, i + 1, j, failedOnly, u);
      FetchesSame(t, StartFrom(t, i + 1, failedOnly, u), j, s.parts[j], AutoOf(s.parts[j], failedOnly), u.max);
    } else {
      hide Start, StartFrom, Fetches;
      ChosenStarts(t, i + 1, j, failedOnly, u);
    }
    hide Start, StartFrom, Fetches;
  }

  lemma FetchesSame(s: State, t: State, j: nat, p: Part, auto: nat, max: nat)
    requires j < |s.parts| == |t.parts| && t.parts[j] == s.parts[j] && |s.runners| <= |t.runners|
    requires forall k :: 0 <= k < |s.runners| ==> t.runners[k] == s.runners[k]
    requires (j in t.registered <==> j in s.registered) && (j in s.registered ==> t.registered[j] == s.registered[j])
    ensures Fetches(s, j, p, auto, max) ==> Fetches(t, j, p, auto, max)
  {
  }

  lemma StartFromHead(s: State, i: nat, failedOnly: bool, u: Setup)
    requires i < |s.parts|
    ensures StartFrom(s, i, failedOnly, u) == StartFrom(StartNext(s, i, failedOnly, u.max), i + 1, failedOnly, u)
  {
    hide Start;
  }

  lemma StartHere(s: State, i: nat, auto: nat, max: nat)
    requires i < |s.parts|
    ensures var t := Start(s, i, auto, true, max);
            && |t.parts| == |s.parts| && |t.runners| == |s.runners| + 1 && Fetches(t, i, s.parts[i], auto, max)
            && (forall k :: 0 <= k < |s.runners| ==> t.runners[k] == s.runners[k])
            && forall j :: 0 <= j < |s.parts| && j != i ==>
                 && t.parts[j] == s.parts[j] && (j in t.registered <==> j in s.registered)
                 && (j in s.registered ==> t.registered[j] == s.registered[j])
  {
  }

  lemma {:induction false} PastStays(s: State, i: nat, j: nat, failedOnly: bool, u: Setup)
    requires j < i <= |s.parts|
    ensures var t := StartFrom(s, i, failedOnly, u);
            && t.parts[j] == s.parts[j] && |s.runners| <= |t.runners|
            && (forall k :: 0 <= k < |s.runners| ==> t.runners[k] == s.runners[k])
            && (j in t.registered <==> j in s.registered) && (j in s.registered ==> t.registered[j] == s.registered[j])
    decreases |s.parts| - i
  {
    if i < |s.parts| {
      StartHere(s, i, AutoOf(s.parts[i], failedOnly), u.max);
      StartFromHead(s, i, failedOnly, u);
      hide Start, StartFrom, Fetches;
      PastStays(StartNext(s, i, failedOnly, u.max), i + 1, j, failedOnly, u);
    }
  }

  // ---- how many failures a call survives ----

  ghost function RunFrom(s: State, es: seq<Event>, u: Setup): State {
    if es == [] then s
    else
      var t := RunFrom(s, es[..|es| - 1], u);
      if Enabled(t, es[|es| - 1], u) then Step(t, es[|es| - 1], u) else t
  }

  ghost predicate Of(e: Event, r: nat) {
    !e.Open? && !e.Click? && !e.Poll? && e.r == r
  }

  predicate Fails(e: Event) {
    || e.Break? || e.WriteFailed? || (e.Written? && e.slow)
    || (e.Headers? && (e.reply.Unreachable? || e.reply.Html? || e.reply.BadStatus?))
  }

  predicate Refuses(e: Event) {
    e.Headers? && (e.reply.Whole? || e.reply.WrongRange?)
  }

  ghost function Failures(es: seq<Event>, r: nat): nat {
    if es == [] then 0
    else Failures(es[..|es| - 1], r) + if Of(es[|es| - 1], r) && Fails(es[|es| - 1]) then 1 else 0
  }

  // The call has come to its end, and its part was completed by it.
  ghost predicate CompletedIn(s: State, es: seq<Event>, r: nat, u: Setup) {
    es != [] &&
    var t, v := RunFrom(s, es[..|es| - 1], u), RunFrom(s, es, u);
    || CompletedIn(s, es[..|es| - 1], r, u)
    || (Has(t, r) && Has(v, r) && t.runners[r].Live() && v.runners[r].stage.Ended?
        && v.parts[v.runners[r].part].status == Completed)
  }

  // What a call has used up after so many failures, if it started with this count of restarts
  ghost predicate Holding(x: Runner, auto: nat, max: nat, failures: nat) {
    && auto <= x.flag.autoRestarts <= auto + failures && auto + max <= x.flag.limit
    && x.attempt <= failures + if x.stage.Waiting? then 0 else 1
  }

  ghost predicate Untouched(x: Runner, y: Runner, max: nat) {
    && y.part == x.part && y.stage == x.stage && y.attempt == x.attempt
    && y.flag.autoRestarts == x.flag.autoRestarts
    && (y.flag.limit == x.flag.limit || y.flag.limit == x.flag.autoRestarts + max)
  }

  lemma {:induction false} StartsBeside(s: State, i: nat, failedOnly: bool, r: nat, u: Setup)
    requires i <= |s.parts| && r < |s.runners|
    ensures var t := StartFrom(s, i, failedOnly, u); r < |t.runners| && t.runners[r] == s.runners[r]
    decreases |s.parts| - i
  {
    if i < |s.parts| {
      var chosen := if failedOnly then s.parts[i].status == Failed else s.parts[i].status != Completed;
      var auto := if failedOnly then s.parts[i].lastAuto else 0;
      StartBeside(s, i, auto, true, r, u.max);
      hide Start;
      StartsBeside(if chosen then Start(s, i, auto, true, u.max) else s, i + 1, failedOnly, r, u);
    }
  }

  lemma StartBeside(s: State, i: nat, auto: nat, observed: bool, r: nat, max: nat)
    requires i < |s.parts| && r < |s.runners|
    ensures var t := Start(s, i, auto, observed, max); r < |t.runners| && t.runners[r] == s.runners[r]
  {
  }

  lemma OthersBeside(s: State, e: Event, r: nat, u: Setup)
    requires Has(s, r) && Enabled(s, e, u) && !Of(e, r)
    ensures var t := Step(s, e, u); Has(t, r) && Untouched(s.runners[r], t.runners[r], u.max)
  {
    hide StartFrom, Start, WriteAt;
    match e
    case Open => StartsBeside(s.(started := true), 0, false, r, u);
    case Poll => StartsBeside(s.(phase2 := true), 0, true, r, u);
    case Click(i) =>
      if i < |s.parts| {
        StartBeside(s, i, s.parts[i].lastAuto, false, r, u.max);
      }
    case _ => OtherCall(s, e, r, u);
  }

  // Nothing changes but the call and its part.
  ghost predicate OnlyItself(s: State, r: nat, t: State) {
    && Has(s, r) && |t.runners| == |s.runners| && |t.parts| == |s.parts|
    && t.runners[r].part == s.runners[r].part
    && (forall k :: 0 <= k < |s.runners| && k != r ==> t.runners[k] == s.runners[k])
    && (forall i :: 0 <= i < |s.parts| && i != s.runners[r].part ==> t.parts[i] == s.parts[i])
    && t.outcome == s.outcome && t.started == s.started && t.phase2 == s.phase2
  }

  lemma SetOnly(s: State, r: nat, x: Runner)
    requires Has(s, r) && x.part == s.runners[r].part
    ensures OnlyItself(s, r, SetRunner(s, r, x))
  {
  }

  lemma EndOnly(s: State, r: nat, x: Runner, status: Status, special: bool)
    requires Has(s, r) && x.part == s.runners[r].part
    ensures OnlyItself(s, r, End(s, r, x, status, special))
  {
  }

  lemma OnlyTrans(s: State, r: nat, t: State, v: State)
    requires OnlyItself(s, r, t) && OnlyItself(t, r, v)
    ensures OnlyItself(s, r, v)
  {
  }

  lemma ErrorOnly(s: State, r: nat)
    requires Has(s, r)
    ensures OnlyItself(s, r, Voluntary(s, r)) && OnlyItself(s, r, StreamError(s, r)) && OnlyItself(s, r, Consume(s, r))
  {
    hide OnlyItself, End;
    var x := s.runners[r];
    var y := x.(flag := x.flag.(autoRestarts := x.flag.autoRestarts + 1), stage := Waiting);
    SetOnly(s, r, x.(flag := x.flag.(requested := false), attempt := 0, stage := Waiting));
    SetOnly(s, r, y);
    EndOnly(s, r, y, Failed, false);
  }

  lemma HeadersOnly(s: State, r: nat, reply: Reply)
    requires Has(s, r)
    ensures OnlyItself(s, r, OnHeaders(s, r, reply))
  {
    hide OnlyItself, End, Consume, Voluntary;
    var x := s.runners[r];
    ErrorOnly(s, r);
    EndOnly(s, r, x, Failed, true);
    EndOnly(s, r, x, Failed, false);
    SetOnly(s, r, x.(stage := Reading));
    SetOnly(s, r, x.(stage := Waiting));
    var y := x.(silent := if x.aborted then x.silent else x.silent + 1);
    SetOnly(s, r, y);
    ErrorOnly(SetRunner(s, r, y), r);
    OnlyTrans(s, r, SetRunner(s, r, y), Voluntary(SetRunner(s, r, y), r));
  }

  lemma StoreOnly(s: State, r: nat)
    requires Has(s, r) && s.runners[r].stage.Writing?
    ensures OnlyItself(s, r, Store(s, r)) && Has(Store(s, r), r)
  {
    hide WriteAt, BlobOf;
  }

  lemma SpeedOnly(s: State, r: nat, slow: bool)
    requires Has(s, r)
    ensures OnlyItself(s, r, s) && OnlyItself(s, r, CheckSpeed(s, r, slow))
  {
    assert OnlyItself(s, r, s);
    hide OnlyItself, Voluntary, StreamError;
    var x := s.runners[r];
    var y := x.(flag := x.flag.(autoRestarts := x.flag.autoRestarts + 1, requested := true), aborted := true);
    ErrorOnly(s, r);
    SetOnly(s, r, y);
    ErrorOnly(SetRunner(s, r, y), r);
    OnlyTrans(s, r, SetRunner(s, r, y), Voluntary(SetRunner(s, r, y), r));
  }

  lemma WrittenOnly(s: State, r: nat, slow: bool)
    requires Has(s, r) && s.runners[r].stage.Writing?
    ensures Has(Store(s, r), r) && OnlyItself(s, r, CheckSpeed(Store(s, r), r, slow))
  {
    hide OnlyItself, Store, CheckSpeed;
    StoreOnly(s, r);
    SpeedOnly(Store(s, r), r, slow);
    OnlyTrans(s, r, Store(s, r), CheckSpeed(Store(s, r), r, slow));
  }

  lemma BeginOnly(s: State, r: nat, attempt: nat)
    requires Has(s, r)
    ensures OnlyItself(s, r, BeginAttempt(s, r, attempt))
  {
    hide End;
    EndOnly(s, r, s.runners[r], Failed, false);
    EndOnly(s, r, s.runners[r], Completed, false);
  }

  lemma LoseOnly(s: State, r: nat, landed: nat)
    requires Has(s, r) && s.runners[r].stage.Writing? && s.runners[r].stage.target.Some?
    requires landed <= |s.runners[r].stage.chunk|
    ensures OnlyItself(s, r, LoseWrite(s, r, landed)) && Has(LoseWrite(s, r, landed), r)
  {
    hide WriteAt;
  }

  lemma StepOnly(s: State, e: Event, u: Setup)
    requires Enabled(s, e, u) && !e.Open? && !e.Poll? && !e.Click?
    ensures OnlyItself(s, e.r, Step(s, e, u))
  {
    hide OnlyItself, Voluntary, StreamError, OnHeaders, CheckSpeed, BeginAttempt, End, Store, LoseWrite;
    match e
    case Headers(r, reply) => HeadersOnly(s, r, reply);
    case Chunk(r, bytes) =>
      var x := s.runners[r];
      SetOnly(s, r, x.(stage := Writing(bytes, Target(s, x.part, u)), position := x.position + |bytes|));
    case Written(r, slow) => WrittenOnly(s, r, slow);
    case WriteFailed(r, landed) =>
      LoseOnly(s, r, landed);
      ErrorOnly(LoseWrite(s, r, landed), r);
      OnlyTrans(s, r, LoseWrite(s, r, landed), StreamError(LoseWrite(s, r, landed), r));
    case Finish(r) =>
      ErrorOnly(s, r);
      EndOnly(s, r, s.runners[r], Completed, false);
    case Break(r) => ErrorOnly(s, r);
    case AbortRead(r) => ErrorOnly(s, r);
    case Wake(r) => BeginOnly(s, r, s.runners[r].attempt + 1);
  }

  lemma OtherCall(s: State, e: Event, r: nat, u: Setup)
    requires Has(s, r) && Enabled(s, e, u) && !Of(e, r) && !e.Open? && !e.Poll? && !e.Click?
    ensures var t := Step(s, e, u); Has(t, r) && t.runners[r] == s.runners[r]
  {
    StepOnly(s, e, u);
    hide Step, Enabled;
  }

  lemma OwnHolds(s: State, e: Event, r: nat, auto: nat, f: nat, u: Setup)
    requires Has(s, r) && Enabled(s, e, u) && Of(e, r) && !Refuses(e)
    requires Holding(s.runners[r], auto, u.max, f) && f < PART_MAX_ATTEMPTS && f < u.max
    requires Fails(e) ==> f + 1 < PART_MAX_ATTEMPTS && f + 1 < u.max
    ensures var t := Step(s, e, u);
            && Has(t, r) && t.runners[r].part == s.runners[r].part
            && if t.runners[r].Live() then Holding(t.runners[r], auto, u.max, if Fails(e) then f + 1 else f)
               else t.parts[t.runners[r].part].status == Completed
  {
    StepOnly(s, e, u);
    if Failure(s, e) {
      FailureSpends(s, e, u);
      hide Step;
    } else if Reconnect(s, e) {
      ReconnectIsFree(s, e, u);
      hide Step;
    } else if e.Finish? {
      FinishCompletes(s, e.r, u);
      hide Step;
    } else if e.Headers? {
      ReplyDecides(s, e.r, e.reply, u);
      hide Step;
    } else if e.Written? {
      WrittenCounts(s, e.r, e.slow, u);
      hide Step;
    } else if e.Wake? {
      WakeConnects(s, e.r, u);
      hide Step;
    }
  }

  /** A call that meets fewer failures than it has attempts and restarts, and no refusal, is not given up, whatever else
      happens in the meantime: it lives, or it has completed its part. */
  lemma {:induction false} CallSurvives(s: State, es: seq<Event>, r: nat, u: Setup)
    requires Has(s, r) && s.runners[r].stage.Connecting? && s.runners[r].attempt == 1
    requires s.runners[r].flag.limit == s.runners[r].flag.autoRestarts + u.max
    requires Failures(es, r) < PART_MAX_ATTEMPTS && Failures(es, r) < u.max
    requires forall k :: 0 <= k < |es| && Of(es[k], r) ==> !Refuses(es[k])
    ensures var t, x := RunFrom(s, es, u), s.runners[r];
            && Has(t, r) && t.runners[r].part == x.part
            && (CompletedIn(s, es, r, u)
                || (t.runners[r].Live() && Holding(t.runners[r], x.flag.autoRestarts, u.max, Failures(es, r))))
  {
    hide Step, Enabled, Holding, Fails, Refuses, Untouched;
    var auto := s.runners[r].flag.autoRestarts;
    if es == [] {
      FreshHolds(s.runners[r], u.max);
    } else {
      var n := |es| - 1;
      CallSurvives(s, es[..n], r, u);
      var t := RunFrom(s, es[..n], u);
      var f := Failures(es[..n], r);
      if Enabled(t, es[n], u) {
        if Of(es[n], r) {
          if t.runners[r].Live() && Holding(t.runners[r], auto, u.max, f) {
            OwnHolds(t, es[n], r, auto, f, u);
          } else {
            OwnKeepsHas(t, es[n], r, u);
          }
        } else {
          OthersBeside(t, es[n], r, u);
          UntouchedHolds(t.runners[r], RunFrom(s, es, u).runners[r], auto, u.max, f);
        }
      } else if Of(es[n], r) && Fails(es[n]) {
        MoreHolds(t.runners[r], auto, u.max, f);
      }
    }
  }

  lemma FreshHolds(x: Runner, max: nat)
    requires x.stage.Connecting? && x.attempt == 1 && x.flag.limit == x.flag.autoRestarts + max
    ensures x.Live() && Holding(x, x.flag.autoRestarts, max, 0)
  {
  }

  lemma MoreHolds(x: Runner, auto: nat, max: nat, f: nat)
    ensures Holding(x, auto, max, f) ==> Holding(x, auto, max, f + 1)
  {
  }

  lemma UntouchedHolds(x: Runner, y: Runner, auto: nat, max: nat, f: nat)
    requires Untouched(x, y, max)
    ensures y.part == x.part && y.Live() == x.Live()
    ensures Holding(x, auto, max, f) ==> Holding(y, auto, max, f)
  {
  }

  lemma OwnKeepsHas(s: State, e: Event, r: nat, u: Setup)
    requires Has(s, r) && Enabled(s, e, u) && Of(e, r)
    ensures Has(Step(s, e, u), r) && Step(s, e, u).runners[r].part == s.runners[r].part
  {
    StepOnly(s, e, u);
    hide Step, Enabled;
  }
}
