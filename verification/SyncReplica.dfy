/** The delta sync of one entity: the server's rows, the replica in the browser, and the shared worker between them
    with its cursor and its set of known ids (next-frontend/public/sync-worker.js,
    next-frontend/app/actions/downloads.ts). One sync is in flight at a time, every write is stamped with the time
    at which it becomes visible, and a broadcast reaches the replica in one step. */
module SyncReplica {
  import opened Basics

  const RECONCILE_EVERY := 5

  datatype Row = Row(updatedAt: int, body: nat)

  type Rows = map<nat, Row>

  // A sync from its request to its broadcast. since is the cursor the request carried, stamp the time the server
  // noted before it looked at the rows.
  datatype Phase =
    | Idle
    | Asked(since: Option<int>, reconcile: bool)
    | Stamped(since: Option<int>, reconcile: bool, stamp: int)
    | Answered(reconcile: bool, stamp: int, rows: Rows)
    | AskedIds(stamp: int, rows: Rows)
    | AnsweredIds(stamp: int, rows: Rows, ids: set<nat>)

  // known is broadcastIds, pending is pendingIdbIds, saved the cursor stored beside the replica
  datatype State = State(server: Rows, clock: int, replica: Rows, saved: Option<int>, cursor: Option<int>,
                         known: Option<set<nat>>, pending: Option<set<nat>>, syncCount: nat, phase: Phase)

  datatype Event =
    | Write(id: nat, body: nat)
    | Delete(id: nat)
    | Tick(now: int)
    | Declare(tabCursor: Option<int>, reset: bool, newlyNeeded: bool, ids: set<nat>)
    | Begin
    | Stamp
    | Select
    | Arrive
    | SelectIds
    | ArriveIds
    | Fail

  function Since(rows: Rows, since: Option<int>): Rows {
    map id | id in rows && (since.None? || rows[id].updatedAt >= since.value) :: rows[id]
  }

  // ---- handleDeclare ----

  function OnDeclare(s: State, tabCursor: Option<int>, reset: bool, newlyNeeded: bool, ids: set<nat>): State {
    var t := if reset then s.(cursor := None)
             else if tabCursor.Some? && newlyNeeded && s.cursor.None? then s.(cursor := tabCursor)
             else s;
    if ids == {} then t
    else t.(pending := Some(if t.pending.None? then ids else t.pending.value + ids))
  }

  // ---- fetchAndBroadcast ----

  function OnBegin(s: State): State {
    var n := s.syncCount + 1;
    s.(syncCount := n, phase := Asked(s.cursor, n == 1 || n % RECONCILE_EVERY == 0))
  }

  // The broadcast: orphans go first, then the rows are put in, then the cursor is saved.
  function Deliver(s: State, orphans: set<nat>, rows: Rows, stamp: int): State {
    s.(replica := (s.replica - orphans) + rows, saved := Some(stamp), phase := Idle)
  }

  function OnArrive(s: State): State
    requires s.phase.Answered?
  {
    var t := s.(cursor := Some(s.phase.stamp));
    if s.phase.reconcile then t.(phase := AskedIds(s.phase.stamp, s.phase.rows))
    else
      var known := if s.known.Some? then s.known.value + s.phase.rows.Keys else s.phase.rows.Keys;
      Deliver(t.(known := Some(known)), {}, s.phase.rows, s.phase.stamp)
  }

  // What the worker takes the replica to hold when it reconciles
  function Seeds(s: State): set<nat> {
    if s.known.Some? then s.known.value else if s.pending.Some? then s.pending.value else {}
  }

  function OnArriveIds(s: State): State
    requires s.phase.AnsweredIds?
  {
    var ids := s.phase.ids;
    Deliver(s.(known := Some(ids + s.phase.rows.Keys), pending := None), Seeds(s) - ids, s.phase.rows, s.phase.stamp)
  }

  function OnFail(s: State): State {
    match s.phase
    case Idle => s
    // the ids did not come: the rows are delivered without a reconciliation
    case AskedIds(stamp, rows) => Deliver(s, {}, rows, stamp)
    case AnsweredIds(stamp, rows, _) => Deliver(s, {}, rows, stamp)
    case _ => s.(phase := Idle)
  }

  predicate Enabled(s: State, e: Event) {
    match e
    case Write(_, _) => true
    case Delete(_) => true
    case Tick(now) => now >= s.clock
    // the cursor a tab declares was saved at some time before
    case Declare(tabCursor, _, _, _) => tabCursor.Some? ==> s.saved.Some? && tabCursor.value <= s.saved.value
    case Begin => s.phase.Idle?
    case Stamp => s.phase.Asked?
    case Select => s.phase.Stamped?
    case Arrive => s.phase.Answered?
    case SelectIds => s.phase.AskedIds?
    case ArriveIds => s.phase.AnsweredIds?
    case Fail => !s.phase.Idle?
  }

  function Step(s: State, e: Event): State
    requires Enabled(s, e)
  {
    match e
    case Write(id, body) => s.(server := s.server[id := Row(s.clock, body)])
    case Delete(id) => s.(server := s.server - {id})
    case Tick(now) => s.(clock := now)
    case Declare(tabCursor, reset, newlyNeeded, ids) => OnDeclare(s, tabCursor, reset, newlyNeeded, ids)
    case Begin => OnBegin(s)
    case Stamp => s.(phase := Stamped(s.phase.since, s.phase.reconcile, s.clock))
    case Select => s.(phase := Answered(s.phase.reconcile, s.phase.stamp, Since(s.server, s.phase.since)))
    case Arrive => OnArrive(s)
    case SelectIds => s.(phase := AnsweredIds(s.phase.stamp, s.phase.rows, s.server.Keys))
    case ArriveIds => OnArriveIds(s)
    case Fail => OnFail(s)
  }

  function Run(s: State, es: seq<Event>): State {
    if es == [] then s
    else
      var t := Run(s, es[..|es| - 1]);
      if Enabled(t, es[|es| - 1]) then Step(t, es[|es| - 1]) else t
  }

  // ---- no update is lost ----

  ghost predicate Fetches(cursor: Option<int>, row: Row) {
    cursor.None? || row.updatedAt >= cursor.value
  }

  ghost predicate Has(rows: Rows, id: nat, row: Row) {
    id in rows && rows[id] == row
  }

  // Whatever the replica does not have, the next request with this cursor will fetch.
  ghost predicate Covered(s: State, cursor: Option<int>) {
    forall id :: id in s.server ==> Has(s.replica, id, s.server[id]) || Fetches(cursor, s.server[id])
  }

  ghost predicate AtMost(cursor: Option<int>, time: int) {
    cursor.Some? ==> cursor.value <= time
  }

  // The server has noted the time; every cursor that was saved is older.
  ghost predicate Noted(s: State, stamp: int) {
    stamp <= s.clock && AtMost(s.saved, stamp) && AtMost(s.cursor, stamp)
  }

  // Once rows are on their way: a server row is in the replica, or among them, or was written so late that the next
  // request asks for it; and none of the rows is out of date unless it was written that late.
  ghost predicate OnTheWay(s: State, rows: Rows, stamp: int) {
    && Noted(s, stamp)
    && (forall id :: id in s.server ==>
          Has(s.replica, id, s.server[id]) || Has(rows, id, s.server[id]) || s.server[id].updatedAt >= stamp)
    && (forall id :: id in s.server && id in rows ==> rows[id] == s.server[id] || s.server[id].updatedAt >= stamp)
  }

  ghost predicate Sound(s: State) {
    && (forall id :: id in s.server ==> s.server[id].updatedAt <= s.clock)
    && Covered(s, s.saved) && AtMost(s.saved, s.clock) && AtMost(s.cursor, s.clock)
    && match s.phase
       case Idle => Covered(s, s.cursor)
       case Asked(since, _) => Covered(s, s.cursor) && Covered(s, since) && AtMost(since, s.clock)
       case Stamped(since, _, stamp) =>
         Covered(s, s.cursor) && Covered(s, since) && AtMost(since, stamp) && Noted(s, stamp)
       case Answered(_, stamp, rows) => Covered(s, s.cursor) && OnTheWay(s, rows, stamp)
       case AskedIds(stamp, rows) => (s.cursor == Some(stamp) || Covered(s, s.cursor)) && OnTheWay(s, rows, stamp)
       case AnsweredIds(stamp, rows, ids) =>
         && (s.cursor == Some(stamp) || Covered(s, s.cursor)) && OnTheWay(s, rows, stamp)
         && forall id :: id in s.server ==> id in ids || s.server[id].updatedAt >= stamp
  }

  lemma DeliverSound(s: State, orphans: set<nat>, rows: Rows, stamp: int)
    requires OnTheWay(s, rows, stamp)
    requires forall id :: id in orphans && id in s.server ==> s.server[id].updatedAt >= stamp
    ensures Covered(Deliver(s, orphans, rows, stamp), Some(stamp))
    ensures Covered(s, s.cursor) ==> Covered(Deliver(s, orphans, rows, stamp), s.cursor)
  {
  }

  lemma StepSound(s: State, e: Event)
    requires Sound(s) && Enabled(s, e)
    ensures Sound(Step(s, e))
  {
    match e
    case Arrive => ArriveSound(s);
    case ArriveIds =>
      DeliverSound(s, Seeds(s) - s.phase.ids, s.phase.rows, s.phase.stamp);
    case Fail => FailSound(s);
    case Declare(tabCursor, reset, newlyNeeded, ids) => DeclareSound(s, tabCursor, reset, newlyNeeded, ids);
    case Write(id, body) => WriteSound(s, id, body);
    case Select => SelectSound(s);
    case _ =>
  }

  lemma SelectSound(s: State)
    requires Sound(s) && s.phase.Stamped?
    ensures Sound(Step(s, Select))
  {
  }

  lemma ArriveSound(s: State)
    requires Sound(s) && s.phase.Answered?
    ensures Sound(OnArrive(s))
  {
    DeliverSound(s, {}, s.phase.rows, s.phase.stamp);
  }

  lemma FailSound(s: State)
    requires Sound(s)
    ensures Sound(OnFail(s))
  {
    if s.phase.AskedIds? || s.phase.AnsweredIds? {
      DeliverSound(s, {}, s.phase.rows, s.phase.stamp);
    }
  }

  lemma DeclareSound(s: State, tabCursor: Option<int>, reset: bool, newlyNeeded: bool, ids: set<nat>)
    requires Sound(s) && (tabCursor.Some? ==> s.saved.Some? && tabCursor.value <= s.saved.value)
    ensures Sound(OnDeclare(s, tabCursor, reset, newlyNeeded, ids))
  {
  }

  lemma WriteSound(s: State, id: nat, body: nat)
    requires Sound(s)
    ensures Sound(s.(server := s.server[id := Row(s.clock, body)]))
  {
  }

  // The shared worker starts anew; the replica and the saved cursor are still there.
  ghost function Restarted(s: State): State {
    s.(cursor := None, known := None, pending := None, syncCount := 0, phase := Idle)
  }

  /** This holds when nothing has been synced yet, and whenever the worker has been started again. */
  lemma StartIsSound(server: Rows, clock: int, s: State)
    requires forall id :: id in server ==> server[id].updatedAt <= clock
    ensures Sound(State(server, clock, map[], None, None, None, None, 0, Idle))
    ensures Sound(s) ==> Sound(Restarted(s))
  {
  }

  /** Over every run: a server row the replica does not have in its current form was written at or after the saved
      cursor, so the next request that starts from there fetches it. */
  lemma {:induction false} NoUpdateLost(s: State, es: seq<Event>)
    requires Sound(s)
    ensures var t := Run(s, es);
            && Sound(t)
            && forall id :: id in t.server && !Has(t.replica, id, t.server[id]) ==> Fetches(t.saved, t.server[id])
  {
    hide Sound, Step, Enabled;
    if es != [] {
      var n := |es| - 1;
      NoUpdateLost(s, es[..n]);
      if Enabled(Run(s, es[..n]), es[n]) {
        StepSound(Run(s, es[..n]), es[n]);
      }
    }
    SavedCovers(Run(s, es));
  }

  lemma SavedCovers(s: State)
    requires Sound(s)
    ensures Covered(s, s.saved)
  {
  }

  /** That the stamp is the moment a write becomes visible is what it takes: a row that becomes visible with a stamp
      before the cursor is not in the answer to the next request, and still missing after it. */
  lemma LateWriteLost(s: State, id: nat, row: Row)
    requires s.phase.Idle? && s.cursor.Some? && row.updatedAt < s.cursor.value && !Has(s.replica, id, row)
    ensures var t := s.(server := s.server[id := row]);
            && id !in Since(t.server, t.cursor)
            && forall rows, stamp :: rows == Since(t.server, t.cursor) ==>
                 !Has(Deliver(t, {}, rows, stamp).replica, id, row)
  {
  }

  // ---- reconciliation ----

  // The worker knows every id the replica holds, from its own broadcasts or, before the first, from the tabs.
  ghost predicate KnowsReplica(s: State) {
    s.replica.Keys <= Seeds(s)
  }

  // Two steps can leave the replica with ids the worker does not know: an ordinary sync of a worker that knows
  // nothing yet, which takes the rows it got for everything there is; and rows delivered after the id request
  // failed, which are not noted.
  ghost predicate Informed(s: State, e: Event) {
    && (e == Arrive && s.phase.Answered? && !s.phase.reconcile && s.known.None? ==> s.replica.Keys <= s.phase.rows.Keys)
    && (e == Fail && (s.phase.AskedIds? || s.phase.AnsweredIds?) ==> s.phase.rows.Keys <= Seeds(s))
  }

  /** A step keeps the worker's knowledge exactly when it is neither of those. */
  lemma KnowledgeKept(s: State, e: Event)
    requires KnowsReplica(s) && Enabled(s, e)
    ensures Informed(s, e) <==> KnowsReplica(Step(s, e))
  {
  }

  /** A tab that declares what the replica holds tells a worker that knows nothing yet all it needs; what it declares
      comes on top of what other tabs have declared. The cursor it brings is the one the next request starts from, if
      the worker has none and nobody wants everything anew. */
  lemma DeclareInforms(s: State, tabCursor: Option<int>, reset: bool, newlyNeeded: bool, ids: set<nat>)
    requires s.known.None?
    ensures var t := OnDeclare(s, tabCursor, reset, newlyNeeded, ids);
            && Seeds(t) == Seeds(s) + ids && (s.replica.Keys <= ids ==> KnowsReplica(t))
            && t == s.(cursor := t.cursor, pending := t.pending)
            && (reset ==> t.cursor == None)
            && (!reset && s.cursor.None? && newlyNeeded ==> t.cursor == tabCursor)
            && (!reset && (s.cursor.Some? || !newlyNeeded) ==> t.cursor == s.cursor)
            && OnBegin(t).phase.since == t.cursor
  {
  }

  /** So a worker that has just been started, and is told the ids, makes the replica equal to the server with its first
      sync. */
  lemma FreshWorkerReconciles(s: State, tabCursor: Option<int>, reset: bool, newlyNeeded: bool, ids: set<nat>)
    requires Sound(s) && Enabled(Restarted(s), Declare(tabCursor, reset, newlyNeeded, ids)) && s.replica.Keys <= ids
    ensures WholeSync(Step(Restarted(s), Declare(tabCursor, reset, newlyNeeded, ids))).replica == s.server
  {
    var started := Restarted(s);
    var e := Declare(tabCursor, reset, newlyNeeded, ids);
    RestartSound(s);
    StepSound(started, e);
    DeclareInforms(started, tabCursor, reset, newlyNeeded, ids);
    hide Sound, WholeSync;
    SyncCatchesUp(Step(started, e));
  }

  lemma RestartSound(s: State)
    requires Sound(s)
    ensures Sound(Restarted(s))
  {
  }

  ghost predicate InformedRun(s: State, es: seq<Event>) {
    es == [] || (InformedRun(s, es[..|es| - 1]) && Informed(Run(s, es[..|es| - 1]), es[|es| - 1]))
  }

  lemma {:induction false} RunKnows(s: State, es: seq<Event>)
    requires KnowsReplica(s) && InformedRun(s, es)
    ensures KnowsReplica(Run(s, es))
  {
    hide Step, Enabled, KnowsReplica, Informed;
    if es != [] {
      var n := |es| - 1;
      RunKnows(s, es[..n]);
      if Enabled(Run(s, es[..n]), es[n]) {
        KnowledgeKept(Run(s, es[..n]), es[n]);
      }
    }
  }

  /** After a reconciliation the replica holds no row that is neither on the server's list of ids nor among the rows
      of that very sync. */
  lemma ReconciledBounds(s: State, es: seq<Event>)
    requires KnowsReplica(s) && InformedRun(s, es) && Run(s, es).phase.AnsweredIds?
    ensures var t := Run(s, es); Step(t, ArriveIds).replica.Keys <= t.phase.ids + t.phase.rows.Keys
  {
    RunKnows(s, es);
  }

  // The replica holds a row that is not on the server, and the worker does not know of it.
  ghost predicate Forgotten(s: State, id: nat) {
    && id in s.replica && id !in s.server && s.known.Some? && id !in s.known.value
    && match s.phase
       case Idle | Asked(_, _) | Stamped(_, _, _) => true
       case Answered(_, _, rows) => id !in rows
       case AskedIds(_, rows) => id !in rows
       case AnsweredIds(_, rows, ids) => id !in rows && id !in ids
  }

  lemma StepForgets(s: State, e: Event, id: nat)
    requires Forgotten(s, id) && Enabled(s, e) && !(e.Write? && e.id == id)
    ensures Forgotten(Step(s, e), id)
  {
  }

  /** What the worker does not know it never removes: once forgotten, an orphan outlives every reconciliation of every
      run, even if the tabs declare its id again, unless a row with its id is written on the server. */
  lemma {:induction false} ForgottenForever(s: State, es: seq<Event>, id: nat)
    requires Forgotten(s, id) && forall i :: 0 <= i < |es| ==> !(es[i].Write? && es[i].id == id)
    ensures Forgotten(Run(s, es), id)
  {
    hide Forgotten, Step, Enabled;
    if es != [] {
      var n := |es| - 1;
      ForgottenForever(s, es[..n], id);
      if Enabled(Run(s, es[..n]), es[n]) {
        StepForgets(Run(s, es[..n]), es[n], id);
      }
    }
  }

  function FailedFirst(): seq<Event> {
    [Begin, Fail, Begin, Stamp, Select, Arrive]
  }

  /** That is what every orphan comes to when the first request of a fresh worker fails: the second one goes through,
      does not reconcile, and takes the rows it got for all there is, whatever ids the tabs have declared. */
  lemma FirstFailureForgets(s: State, es: seq<Event>, id: nat)
    requires s.known.None? && s.syncCount == 0 && s.phase.Idle? && id in s.replica && id !in s.server
    requires forall i :: 0 <= i < |es| ==> !(es[i].Write? && es[i].id == id)
    ensures Forgotten(Run(s, FailedFirst() + es), id)
  {
    var t := OnFail(OnBegin(s));
    var u := Step(Step(OnBegin(t), Stamp), Select);
    assert t == s.(syncCount := 1);
    assert u.phase.Answered? && !u.phase.reconcile && u.known.None?;
    assert Forgotten(OnArrive(u), id);
    FailedFirstRuns(s, t, u);
    hide Step, Enabled, Forgotten, Run;
    ForgottenForever(OnArrive(u), es, id);
    RunJoin(s, FailedFirst(), es);
  }

  ghost predicate Leads(s: State, e: Event, t: State) {
    Enabled(s, e) && Step(s, e) == t
  }

  lemma FailedFirstLeads(s: State, t: State, u: State)
    requires s.phase.Idle? && t == OnFail(OnBegin(s)) && t.phase.Idle? && u == Step(Step(OnBegin(t), Stamp), Select)
    ensures Leads(s, Begin, OnBegin(s)) && Leads(OnBegin(s), Fail, t) && Leads(t, Begin, OnBegin(t))
    ensures Leads(OnBegin(t), Stamp, Step(OnBegin(t), Stamp)) && Leads(Step(OnBegin(t), Stamp), Select, u)
    ensures Leads(u, Arrive, OnArrive(u))
  {
    hide Since;
  }

  lemma FailedFirstRuns(s: State, t: State, u: State)
    requires s.phase.Idle? && t == OnFail(OnBegin(s)) && t.phase.Idle? && u == Step(Step(OnBegin(t), Stamp), Select)
    ensures Run(s, FailedFirst()) == OnArrive(u)
  {
    assert Run(s, []) == s;
    FailedFirstLeads(s, t, u);
    hide Run, Leads, Step, OnBegin, OnFail, OnArrive;
    var es := [] + [Begin];
    Then(s, [], s, Begin, OnBegin(s));
    Then(s, es, OnBegin(s), Fail, t);
    Then(s, es + [Fail], t, Begin, OnBegin(t));
    es := es + [Fail] + [Begin];
    Then(s, es, OnBegin(t), Stamp, Step(OnBegin(t), Stamp));
    Then(s, es + [Stamp], Step(OnBegin(t), Stamp), Select, u);
    Then(s, es + [Stamp] + [Select], u, Arrive, OnArrive(u));
    assert FailedFirst() == es + [Stamp] + [Select] + [Arrive];
  }

  lemma Then(s: State, es: seq<Event>, t: State, e: Event, u: State)
    requires Run(s, es) == t && Leads(t, e, u)
    ensures Run(s, es + [e]) == u
  {
    hide Step, Enabled;
    assert (es + [e])[..|es|] == es;
  }

  lemma {:induction false} RunJoin(s: State, a: seq<Event>, b: seq<Event>)
    ensures Run(s, a + b) == Run(Run(s, a), b)
  {
    hide Step, Enabled;
    if b == [] {
      assert a + b == a;
    } else {
      var n := |b| - 1;
      RunJoin(s, a, b[..n]);
      assert (a + b)[..|a + b| - 1] == a + b[..n];
    }
  }

  // A sync in which nothing else happens
  function WholeSync(s: State): State
    requires s.phase.Idle?
  {
    var selected := Step(Step(OnBegin(s), Stamp), Select);
    var arrived := OnArrive(selected);
    if arrived.phase.AskedIds? then OnArriveIds(Step(arrived, SelectIds)) else arrived
  }

  // The rows of the request complete the replica.
  lemma RowsComplete(s: State)
    requires Sound(s) && s.phase.Idle?
    ensures var all := s.replica + Since(s.server, s.cursor);
            forall id :: id in s.server ==> Has(all, id, s.server[id])
  {
    forall id | id in s.server && !Has(s.replica, id, s.server[id])
      ensures id in Since(s.server, s.cursor)
    {
      assert Fetches(s.cursor, s.server[id]);
    }
  }

  lemma WholeSyncIs(s: State)
    requires s.phase.Idle?
    ensures var rows := Since(s.server, s.cursor);
            var reconcile := s.syncCount == 0 || (s.syncCount + 1) % RECONCILE_EVERY == 0;
            && WholeSync(s).server == s.server
            && WholeSync(s).replica == (if reconcile then s.replica - (Seeds(s) - s.server.Keys) else s.replica) + rows
  {
    hide Since;
    assert s.replica - {} == s.replica;
  }

  /** A sync that nobody disturbs brings the replica up to date with every row of the server; one that reconciles,
      as the first and every fifth do, makes it equal to the server. */
  lemma SyncCatchesUp(s: State)
    requires Sound(s) && s.phase.Idle?
    ensures var t := WholeSync(s);
            && (forall id :: id in s.server ==> Has(t.replica, id, s.server[id]))
            && (KnowsReplica(s) && (s.syncCount == 0 || (s.syncCount + 1) % RECONCILE_EVERY == 0) ==>
                  t.replica == s.server)
  {
    RowsComplete(s);
    WholeSyncIs(s);
    hide Sound, WholeSync;
  }

  lemma Stays(s: State, e: Event)
    requires Enabled(s, e)
    ensures Sound(s) ==> Sound(Step(s, e))
    ensures KnowsReplica(s) && Informed(s, e) ==> KnowsReplica(Step(s, e))
    ensures e.Declare? || e.Begin? || e.ArriveIds? ==> Informed(s, e)
  {
    hide Sound, KnowsReplica, Step;
    if Sound(s) {
      StepSound(s, e);
    }
    if KnowsReplica(s) {
      KnowledgeKept(s, e);
    }
  }

  lemma Bounded(s: State)
    requires s.phase.AnsweredIds?
    ensures KnowsReplica(s) ==> Step(s, ArriveIds).replica.Keys <= s.phase.ids + s.phase.rows.Keys
  {
    if KnowsReplica(s) {
      assert Run(s, []) == s;
      ReconciledBounds(s, []);
    }
  }

  // ---- the worker's state as it is changed by messages and responses ----

  class SyncWorker {
    var cursor: Option<int>
    var known: Option<set<nat>>
    var pending: Option<set<nat>>
    var syncCount: nat
    var phase: Phase
    // what is on the server and in the browser
    ghost var server: Rows
    ghost var clock: int
    var replica: Rows
    var saved: Option<int>

    ghost function Now(): State
      reads this
    {
      State(server, clock, replica, saved, cursor, known, pending, syncCount, phase)
    }

    // No update is lost.
    ghost predicate Valid()
      reads this
    {
      Sound(Now())
    }

    // The worker knows every id the replica holds.
    ghost predicate Knows()
      reads this
    {
      KnowsReplica(Now())
    }

    method HandleDeclare(tabCursor: Option<int>, reset: bool, newlyNeeded: bool, ids: set<nat>)
      requires Enabled(Now(), Declare(tabCursor, reset, newlyNeeded, ids))
      modifies this
      ensures Now() == Step(old(Now()), Declare(tabCursor, reset, newlyNeeded, ids))
      ensures (old(Valid()) ==> Valid()) && (old(Knows()) ==> Knows())
    {
      hide Sound, KnowsReplica;
      Stays(Now(), Declare(tabCursor, reset, newlyNeeded, ids));
      if reset {
        cursor := None;
      } else if tabCursor.Some? && newlyNeeded && cursor.None? {
        cursor := tabCursor;
      }
      if ids != {} {
        if pending.None? {
          pending := Some(ids);
        } else {
          pending := Some(pending.value + ids);
        }
      }
    }

    method RunSync() returns (started: bool)
      modifies this
      ensures started <==> old(phase).Idle?
      ensures Now() == if started then Step(old(Now()), Begin) else old(Now())
      ensures (old(Valid()) ==> Valid()) && (old(Knows()) ==> Knows())
    {
      hide Sound, KnowsReplica;
      if !phase.Idle? {
        return false;
      }
      Stays(Now(), Begin);
      syncCount := syncCount + 1;
      phase := Asked(cursor, syncCount == 1 || syncCount % RECONCILE_EVERY == 0);
      return true;
    }

    method Broadcast(rows: Rows, orphans: set<nat>, stamp: int)
      modifies this
      ensures Now() == Deliver(old(Now()), orphans, rows, stamp)
    {
      replica := replica - orphans;
      replica := replica + rows;
      saved := Some(stamp);
      phase := Idle;
    }

    method OnRows()
      requires phase.Answered?
      modifies this
      ensures Now() == Step(old(Now()), Arrive)
      ensures (old(Valid()) ==> Valid()) && (old(Knows()) && old(Informed(Now(), Arrive)) ==> Knows())
    {
      hide Sound, KnowsReplica, Informed;
      Stays(Now(), Arrive);
      var rows, stamp := phase.rows, phase.stamp;
      cursor := Some(stamp);
      if phase.reconcile {
        phase := AskedIds(stamp, rows);
        return;
      }
      if known.Some? {
        known := Some(known.value + rows.Keys);
      } else {
        known := Some(rows.Keys);
      }
      Broadcast(rows, {}, stamp);
    }

    method OnIds()
      requires phase.AnsweredIds?
      modifies this
      ensures Now() == Step(old(Now()), ArriveIds)
      ensures old(Valid()) ==> Valid()
      ensures old(Knows()) ==> Knows() && replica.Keys <= old(phase.ids + phase.rows.Keys)
    {
      hide Sound, KnowsReplica;
      Stays(Now(), ArriveIds);
      Bounded(Now());
      var rows, stamp, ids := phase.rows, phase.stamp, phase.ids;
      if known.None? && pending.Some? {
        known := pending;
      }
      pending := None;
      var orphans: set<nat> := {};
      if known.Some? {
        orphans := known.value - ids;
      }
      known := Some(ids + rows.Keys);
      Broadcast(rows, orphans, stamp);
    }

    method OnFailure()
      requires !phase.Idle?
      modifies this
      ensures Now() == Step(old(Now()), Fail)
      ensures (old(Valid()) ==> Valid()) && (old(Knows()) && old(Informed(Now(), Fail)) ==> Knows())
    {
      hide Sound, KnowsReplica, Informed;
      Stays(Now(), Fail);
      if phase.AskedIds? || phase.AnsweredIds? {
        Broadcast(phase.rows, {}, phase.stamp);
      } else {
        phase := Idle;
      }
    }
  }
}
