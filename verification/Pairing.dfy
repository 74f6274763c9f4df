/** Pairing a TV with a workspace (next-frontend/app/lib/tvPairing.ts). Each function is one serial step on the
    two tables, the clock does not run backwards, and a hash stands for the value it was made from. Codes are
    given as the candidates the random generator would propose, tokens as fresh numbers. */
module Pairing {
  import opened Basics

  const CODE_TTL := 10 * 60 * 1000
  const APPROVED_TOKEN_WINDOW := 15 * 60 * 1000
  const CLEANUP_AGE := 60 * 60 * 1000
  const MAX_DEVICES := 8
  const MAX_ACTIVE_PER_IP := 5
  const MAX_CANDIDATES := 12

  datatype Status = Pending | Approved | Denied | Expired

  datatype Pairing = Pairing(code: string, secret: string, ip: Option<string>, status: Status, expiresAt: int,
                             workspace: Option<string>, approvedAt: Option<int>, device: Option<nat>)

  datatype Device = Device(workspace: string, token: Option<nat>, revoked: bool)

  // One approval that went through: the pairing row it claimed and the device it made
  datatype Approval = Approval(row: nat, code: string, secret: string, workspace: string, device: nat)

  // Rows carry increasing ids, so the newest row of a secret is the one with the greatest id. The history of
  // approvals is not stored anywhere; it says what has happened.
  datatype Db = Db(pairings: map<nat, Pairing>, devices: map<nat, Device>, nextRow: nat, nextDevice: nat,
                   nextToken: nat, clock: int, history: seq<Approval>)

  datatype Started = StartedWith(code: string, expiresAt: int) | BadSecret | TooManyActive | NoCode

  datatype Polled = IsPending | IsExpired | IsDenied | IsUnknown | IsApproved(device: nat, token: nat)

  datatype ApproveReply = DeviceMade(device: nat) | InvalidCode | TooManyDevices

  datatype Request =
    | Start(secret: string, ip: Option<string>, candidates: seq<string>)
    | Poll(secret: string)
    | Approve(code: string, workspace: string)
    | Revoke(workspace: string, device: nat)
    | Consume(device: nat)

  // 32 to 128 letters, digits, dashes or underscores
  predicate IsSecret(s: string) {
    32 <= |s| <= 128 && forall i :: 0 <= i < |s| ==>
      'A' <= s[i] <= 'Z' || 'a' <= s[i] <= 'z' || '0' <= s[i] <= '9' || s[i] == '_' || s[i] == '-'
  }

  // A pending row that has not run out
  predicate Active(p: Pairing, now: int) {
    p.status == Pending && p.expiresAt > now
  }

  function ActiveOfIp(pairings: map<nat, Pairing>, ip: string, now: int): set<nat> {
    set r | r in pairings && pairings[r].ip == Some(ip) && Active(pairings[r], now)
  }

  function ActiveWithCode(pairings: map<nat, Pairing>, code: string, now: int): set<nat> {
    set r | r in pairings && pairings[r].code == code && Active(pairings[r], now)
  }

  function RowsOf(pairings: map<nat, Pairing>, secret: string): set<nat> {
    set r | r in pairings && pairings[r].secret == secret
  }

  function LiveDevices(devices: map<nat, Device>, workspace: string): set<nat> {
    set d | d in devices && devices[d].workspace == workspace && !devices[d].revoked
  }

  // ---- startPairing ----

  function Cleaned(pairings: map<nat, Pairing>, secret: string, now: int): map<nat, Pairing> {
    map r | r in pairings && pairings[r].expiresAt >= now - CLEANUP_AGE
            && !(pairings[r].secret == secret && pairings[r].status == Pending) :: pairings[r]
  }

  // The first of the proposed codes that no active row has, or none
  function FreeCode(pairings: map<nat, Pairing>, candidates: seq<string>, now: int): Option<string> {
    if candidates == [] then None
    else if ActiveWithCode(pairings, candidates[0], now) == {} then Some(candidates[0])
    else FreeCode(pairings, candidates[1..], now)
  }

  function FirstTwelve(candidates: seq<string>): seq<string> {
    if |candidates| <= MAX_CANDIDATES then candidates else candidates[..MAX_CANDIDATES]
  }

  function StartPairing(db: Db, secret: string, ip: Option<string>, candidates: seq<string>, now: int): (Started, Db) {
    if !IsSecret(secret) then (BadSecret, db)
    else
      var cleaned := db.(pairings := Cleaned(db.pairings, secret, now));
      if ip.Some? && |ActiveOfIp(cleaned.pairings, ip.value, now)| >= MAX_ACTIVE_PER_IP then (TooManyActive, cleaned)
      else
        match FreeCode(cleaned.pairings, FirstTwelve(candidates), now)
        case None => (NoCode, cleaned)
        case Some(code) =>
          var row := Pairing(code, secret, ip, Pending, now + CODE_TTL, None, None, None);
          (StartedWith(code, now + CODE_TTL),
           cleaned.(pairings := cleaned.pairings[db.nextRow := row], nextRow := db.nextRow + 1))
  }

  // ---- pollPairing ----

  predicate IsNewest(rows: set<nat>, r: nat) {
    r in rows && forall q :: q in rows ==> q <= r
  }

  lemma {:induction false} NewestExists(rows: set<nat>)
    requires rows != {}
    ensures exists r :: IsNewest(rows, r)
  {
    var q :| q in rows;
    if rows == {q} {
      assert IsNewest(rows, q);
    } else {
      var rest := rows - {q};
      NewestExists(rest);
      var r :| IsNewest(rest, r);
      assert forall x :: x in rows ==> x == q || x in rest;
      assert IsNewest(rows, if q > r then q else r);
    }
  }

  function Newest(rows: set<nat>): (r: nat)
    requires rows != {}
    ensures IsNewest(rows, r)
  {
    NewestExists(rows);
    var r :| IsNewest(rows, r);
    r
  }

  function PollPairing(db: Db, secret: string, now: int): (Polled, Db) {
    if !IsSecret(secret) || RowsOf(db.pairings, secret) == {} then (IsUnknown, db)
    else
      var row := Newest(RowsOf(db.pairings, secret));
      var p := db.pairings[row];
      if p.status == Pending then
        if p.expiresAt <= now then (IsExpired, db.(pairings := db.pairings[row := p.(status := Expired)]))
        else (IsPending, db)
      else if p.status != Approved || p.device.None? then
        (if p.status == Denied then IsDenied else IsExpired, db)
      else if p.approvedAt.None? || now - p.approvedAt.value > APPROVED_TOKEN_WINDOW then (IsExpired, db)
      else if p.device.value !in db.devices || db.devices[p.device.value].revoked then (IsDenied, db)
      else
        var d := p.device.value;
        (IsApproved(d, db.nextToken),
         db.(devices := db.devices[d := db.devices[d].(token := Some(db.nextToken))], nextToken := db.nextToken + 1))
  }

  // ---- approvePairing, revokeTvDevice, consumeApprovedPairings ----

  // What approving the row does to the tables
  function AfterApproval(db: Db, row: nat, workspace: string, now: int): Db
    requires row in db.pairings
  {
    var p, d := db.pairings[row], db.nextDevice;
    db.(pairings := db.pairings[row := p.(status := Approved, workspace := Some(workspace), approvedAt := Some(now),
                                          device := Some(d))],
        devices := db.devices[d := Device(workspace, None, false)], nextDevice := d + 1, clock := now,
        history := db.history + [Approval(row, p.code, p.secret, workspace, d)])
  }

  function ApprovePairing(db: Db, code: string, workspace: string, now: int): (ApproveReply, Db) {
    var rows := ActiveWithCode(db.pairings, code, now);
    if rows == {} then (InvalidCode, db)
    else if |LiveDevices(db.devices, workspace)| >= MAX_DEVICES then (TooManyDevices, db)
    else
      (DeviceMade(db.nextDevice), AfterApproval(db, Newest(rows), workspace, now))
  }

  function RevokeDevice(db: Db, workspace: string, d: nat): (bool, Db) {
    if d in db.devices && db.devices[d].workspace == workspace && !db.devices[d].revoked then
      (true, db.(devices := db.devices[d := db.devices[d].(revoked := true, token := None)],
                 pairings := map r | r in db.pairings && db.pairings[r].device != Some(d) :: db.pairings[r]))
    else (false, db)
  }

  function ConsumeApproved(db: Db, d: nat): Db {
    db.(pairings := map r | r in db.pairings && !(db.pairings[r].device == Some(d) && db.pairings[r].status == Approved)
                      :: db.pairings[r])
  }

  // ---- runs ----

  function Step(db: Db, r: Request, now: int): Db {
    var after := match r
      case Start(secret, ip, candidates) => StartPairing(db, secret, ip, candidates, now).1
      case Poll(secret) => PollPairing(db, secret, now).1
      case Approve(code, workspace) => ApprovePairing(db, code, workspace, now).1
      case Revoke(workspace, device) => RevokeDevice(db, workspace, device).1
      case Consume(device) => ConsumeApproved(db, device);
    after.(clock := now)
  }

  function Initial(now: int): Db {
    Db(map[], map[], 0, 0, 0, now, [])
  }

  // Requests with the time each one is served
  function Run(db: Db, rs: seq<(Request, int)>): Db {
    if rs == [] then db else Step(Run(db, rs[..|rs| - 1]), rs[|rs| - 1].0, rs[|rs| - 1].1)
  }

  ghost predicate Forward(start: int, rs: seq<(Request, int)>) {
    && (rs != [] ==> start <= rs[0].1)
    && forall i, j :: 0 <= i <= j < |rs| ==> rs[i].1 <= rs[j].1
  }

  // ---- the invariant ----

  // No two active rows share a code, at the time of the last step and therefore ever after.
  ghost predicate CodesUnique(db: Db) {
    forall r, q :: (r in db.pairings && q in db.pairings && Active(db.pairings[r], db.clock)
                    && Active(db.pairings[q], db.clock) && db.pairings[r].code == db.pairings[q].code) ==> r == q
  }

  ghost predicate FewPerIp(db: Db) {
    forall ip :: |ActiveOfIp(db.pairings, ip, db.clock)| <= MAX_ACTIVE_PER_IP
  }

  ghost predicate FewDevices(db: Db) {
    forall w :: |LiveDevices(db.devices, w)| <= MAX_DEVICES
  }

  ghost predicate NoRevokedToken(db: Db) {
    forall d :: d in db.devices && db.devices[d].revoked ==> db.devices[d].token == None
  }

  // Devices and approvals correspond one to one; every approval claimed a row of its own.
  ghost predicate OneApprovalEach(db: Db) {
    && (forall i :: 0 <= i < |db.history| ==>
          && db.history[i].device in db.devices && db.history[i].row < db.nextRow
          && db.devices[db.history[i].device].workspace == db.history[i].workspace)
    && (forall i, j :: 0 <= i < j < |db.history| ==>
          db.history[i].device != db.history[j].device && db.history[i].row != db.history[j].row)
    && (forall d :: d in db.devices ==> exists i :: 0 <= i < |db.history| && db.history[i].device == d)
  }

  // The row is the one this approval claimed, and names the device it made.
  ghost predicate MadeBy(a: Approval, r: nat, p: Pairing) {
    a.row == r && a.code == p.code && a.secret == p.secret && p.device == Some(a.device)
  }

  ghost predicate Pristine(history: seq<Approval>, r: nat) {
    forall i :: 0 <= i < |history| ==> history[i].row != r
  }

  // A row that names a device has been approved once; a pending row has not been.
  ghost predicate RowsTrue(db: Db) {
    && (forall r :: r in db.pairings ==> r < db.nextRow)
    && (forall d :: d in db.devices ==> d < db.nextDevice)
    && (forall r :: r in db.pairings && db.pairings[r].device.Some? ==>
          exists i :: 0 <= i < |db.history| && MadeBy(db.history[i], r, db.pairings[r]))
    && (forall r :: r in db.pairings && db.pairings[r].status == Pending ==>
          db.pairings[r].device.None? && Pristine(db.history, r))
  }

  ghost predicate Sound(db: Db) {
    CodesUnique(db) && FewPerIp(db) && FewDevices(db) && NoRevokedToken(db) && OneApprovalEach(db) && RowsTrue(db)
  }

  lemma {:induction false} SubsetSize<T>(a: set<T>, b: set<T>)
    requires a <= b
    ensures |a| <= |b|
  {
    if a != {} {
      var x :| x in a;
      SubsetSize(a - {x}, b - {x});
    }
  }

  // The rows that are active now were active before, with the same code and address.
  ghost predicate NoneNew(before: map<nat, Pairing>, clock: int, after: map<nat, Pairing>, now: int) {
    forall r :: r in after && Active(after[r], now) ==>
                  && r in before && Active(before[r], clock)
                  && before[r].code == after[r].code && before[r].ip == after[r].ip
  }

  lemma NoneNewKeeps(db: Db, t: Db)
    requires CodesUnique(db) && FewPerIp(db) && NoneNew(db.pairings, db.clock, t.pairings, t.clock)
    ensures CodesUnique(t) && FewPerIp(t)
  {
    forall ip
      ensures |ActiveOfIp(t.pairings, ip, t.clock)| <= MAX_ACTIVE_PER_IP
    {
      SubsetSize(ActiveOfIp(t.pairings, ip, t.clock), ActiveOfIp(db.pairings, ip, db.clock));
    }
  }

  lemma SameDevices(db: Db, t: Db)
    requires FewDevices(db) && NoRevokedToken(db) && OneApprovalEach(db) && t.devices == db.devices
    requires t.history == db.history && t.nextRow >= db.nextRow
    ensures FewDevices(t) && NoRevokedToken(t) && OneApprovalEach(t)
  {
  }

  // Rows are only dropped, or run out.
  ghost predicate Fewer(db: Db, t: Db) {
    && t.nextRow == db.nextRow && t.nextDevice == db.nextDevice && t.history == db.history
    && t.devices.Keys == db.devices.Keys
    && forall r :: r in t.pairings ==>
         r in db.pairings && (t.pairings[r] == db.pairings[r] || t.pairings[r] == db.pairings[r].(status := Expired))
  }

  lemma FewerRows(db: Db, t: Db)
    requires RowsTrue(db) && Fewer(db, t) && db.clock <= t.clock
    ensures RowsTrue(t) && NoneNew(db.pairings, db.clock, t.pairings, t.clock)
  {
    forall r | r in t.pairings && t.pairings[r].device.Some?
      ensures exists i :: 0 <= i < |t.history| && MadeBy(t.history[i], r, t.pairings[r])
    {
      var i :| 0 <= i < |db.history| && MadeBy(db.history[i], r, db.pairings[r]);
      assert MadeBy(t.history[i], r, t.pairings[r]);
    }
  }

  // ---- each function keeps it ----

  lemma FewerSound(db: Db, t: Db)
    requires Sound(db) && Fewer(db, t) && db.clock <= t.clock && t.devices == db.devices
    ensures Sound(t)
  {
    hide CodesUnique, FewPerIp, FewDevices, NoRevokedToken, OneApprovalEach, RowsTrue, NoneNew;
    FewerRows(db, t);
    NoneNewKeeps(db, t);
    SameDevices(db, t);
  }

  lemma FreeCodeIsFree(pairings: map<nat, Pairing>, candidates: seq<string>, now: int)
    ensures var c := FreeCode(pairings, candidates, now);
            c.Some? ==> c.value in candidates && ActiveWithCode(pairings, c.value, now) == {}
  {
  }

  lemma AddRow(db: Db, row: Pairing)
    requires Sound(db) && row.status == Pending && row.device.None?
    requires ActiveWithCode(db.pairings, row.code, db.clock) == {}
    requires row.ip.Some? ==> |ActiveOfIp(db.pairings, row.ip.value, db.clock)| < MAX_ACTIVE_PER_IP
    ensures Sound(db.(pairings := db.pairings[db.nextRow := row], nextRow := db.nextRow + 1))
  {
    var t := db.(pairings := db.pairings[db.nextRow := row], nextRow := db.nextRow + 1);
    AddRowCodes(db, row);
    AddRowIps(db, row);
    AddRowTrue(db, row);
    hide CodesUnique, FewPerIp, FewDevices, NoRevokedToken, OneApprovalEach, RowsTrue;
    SameDevices(db, t);
  }

  lemma AddRowCodes(db: Db, row: Pairing)
    requires CodesUnique(db) && RowsTrue(db) && ActiveWithCode(db.pairings, row.code, db.clock) == {}
    ensures CodesUnique(db.(pairings := db.pairings[db.nextRow := row], nextRow := db.nextRow + 1))
  {
    assert forall r :: r in db.pairings && Active(db.pairings[r], db.clock) && db.pairings[r].code == row.code ==>
                         r in ActiveWithCode(db.pairings, row.code, db.clock);
  }

  lemma AddRowIps(db: Db, row: Pairing)
    requires FewPerIp(db)
    requires row.ip.Some? ==> |ActiveOfIp(db.pairings, row.ip.value, db.clock)| < MAX_ACTIVE_PER_IP
    ensures FewPerIp(db.(pairings := db.pairings[db.nextRow := row], nextRow := db.nextRow + 1))
  {
    var t := db.(pairings := db.pairings[db.nextRow := row], nextRow := db.nextRow + 1);
    forall ip
      ensures |ActiveOfIp(t.pairings, ip, t.clock)| <= MAX_ACTIVE_PER_IP
    {
      var before := ActiveOfIp(db.pairings, ip, db.clock);
      SubsetSize(ActiveOfIp(t.pairings, ip, t.clock), if row.ip == Some(ip) then before + {db.nextRow} else before);
    }
  }

  lemma AddRowTrue(db: Db, row: Pairing)
    requires RowsTrue(db) && OneApprovalEach(db) && row.status == Pending && row.device.None?
    ensures RowsTrue(db.(pairings := db.pairings[db.nextRow := row], nextRow := db.nextRow + 1))
  {
  }

  lemma CleanedSound(db: Db, secret: string, now: int)
    requires Sound(db) && db.clock <= now
    ensures Sound(db.(clock := now)) && Sound(db.(pairings := Cleaned(db.pairings, secret, now), clock := now))
  {
    FewerSound(db, db.(pairings := Cleaned(db.pairings, secret, now), clock := now));
    FewerSound(db, db.(clock := now));
  }

  lemma StartSound(db: Db, secret: string, ip: Option<string>, candidates: seq<string>, now: int)
    requires Sound(db) && db.clock <= now
    ensures Sound(StartPairing(db, secret, ip, candidates, now).1.(clock := now))
  {
    hide Sound, Cleaned, FreeCode, FirstTwelve, IsSecret;
    CleanedSound(db, secret, now);
    var cleaned := db.(pairings := Cleaned(db.pairings, secret, now), clock := now);
    var code := FreeCode(cleaned.pairings, FirstTwelve(candidates), now);
    FreeCodeIsFree(cleaned.pairings, FirstTwelve(candidates), now);
    if code.Some? && !(ip.Some? && |ActiveOfIp(cleaned.pairings, ip.value, now)| >= MAX_ACTIVE_PER_IP) {
      AddRow(cleaned, Pairing(code.value, secret, ip, Pending, now + CODE_TTL, None, None, None));
    }
  }

  lemma TokenSound(db: Db, d: nat, token: Option<nat>, t: Db)
    requires Sound(db) && d in db.devices && !db.devices[d].revoked
    requires t == db.(devices := db.devices[d := db.devices[d].(token := token)], nextToken := t.nextToken)
    ensures Sound(t)
  {
    hide FewDevices, CodesUnique, FewPerIp;
    SameLive(db, t);
    SamePairings(db, t);
  }

  lemma SamePairings(db: Db, t: Db)
    requires t.pairings == db.pairings && t.clock == db.clock
    ensures (CodesUnique(db) ==> CodesUnique(t)) && (FewPerIp(db) ==> FewPerIp(t))
  {
  }

  lemma SameLive(db: Db, t: Db)
    requires FewDevices(db) && db.devices.Keys == t.devices.Keys
    requires forall d :: d in db.devices ==>
               t.devices[d].workspace == db.devices[d].workspace && t.devices[d].revoked == db.devices[d].revoked
    ensures FewDevices(t)
  {
    forall w
      ensures |LiveDevices(t.devices, w)| <= MAX_DEVICES
    {
      assert LiveDevices(t.devices, w) == LiveDevices(db.devices, w);
    }
  }

  lemma PollSound(db: Db, secret: string, now: int)
    requires Sound(db) && db.clock <= now
    ensures Sound(PollPairing(db, secret, now).1.(clock := now))
  {
    hide Sound;
    var later := db.(clock := now);
    FewerSound(db, later);
    var (polled, t) := PollPairing(db, secret, now);
    if polled.IsApproved? {
      TokenSound(later, polled.device, Some(db.nextToken), t.(clock := now));
    } else {
      FewerSound(db, t.(clock := now));
    }
  }

  lemma RevokeSound(db: Db, workspace: string, d: nat, now: int)
    requires Sound(db) && db.clock <= now
    ensures Sound(RevokeDevice(db, workspace, d).1.(clock := now))
  {
    var t := RevokeDevice(db, workspace, d).1.(clock := now);
    FewerRows(db, t);
    NoneNewKeeps(db, t);
    forall w
      ensures |LiveDevices(t.devices, w)| <= MAX_DEVICES
    {
      SubsetSize(LiveDevices(t.devices, w), LiveDevices(db.devices, w));
    }
    hide CodesUnique, FewPerIp, RowsTrue, NoneNew;
  }

  lemma ConsumeSound(db: Db, d: nat, now: int)
    requires Sound(db) && db.clock <= now
    ensures Sound(ConsumeApproved(db, d).(clock := now))
  {
    FewerSound(db, ConsumeApproved(db, d).(clock := now));
  }

  // ---- approval ----

  lemma ApprovedDevices(db: Db, row: nat, workspace: string, now: int)
    requires Sound(db) && row in db.pairings && db.pairings[row].status == Pending
    requires |LiveDevices(db.devices, workspace)| < MAX_DEVICES
    ensures var t := AfterApproval(db, row, workspace, now); FewDevices(t) && NoRevokedToken(t)
  {
    var t := AfterApproval(db, row, workspace, now);
    forall w
      ensures |LiveDevices(t.devices, w)| <= MAX_DEVICES
    {
      var before := LiveDevices(db.devices, w);
      SubsetSize(LiveDevices(t.devices, w), if w == workspace then before + {db.nextDevice} else before);
    }
  }

  lemma ApprovedHistory(db: Db, row: nat, workspace: string, now: int)
    requires Sound(db) && row in db.pairings && db.pairings[row].status == Pending
    ensures OneApprovalEach(AfterApproval(db, row, workspace, now))
  {
    var t := AfterApproval(db, row, workspace, now);
    hide CodesUnique, FewPerIp, FewDevices, NoRevokedToken, MadeBy;
    assert Pristine(db.history, row);
    forall d | d in t.devices
      ensures exists i :: 0 <= i < |t.history| && t.history[i].device == d
    {
      if d in db.devices && d != db.nextDevice {
        var i :| 0 <= i < |db.history| && db.history[i].device == d;
        assert t.history[i].device == d;
      } else {
        assert t.history[|db.history|].device == d;
      }
    }
  }

  lemma ApprovedRows(db: Db, row: nat, workspace: string, now: int)
    requires Sound(db) && row in db.pairings && db.pairings[row].status == Pending
    ensures RowsTrue(AfterApproval(db, row, workspace, now))
  {
    var t := AfterApproval(db, row, workspace, now);
    hide CodesUnique, FewPerIp, FewDevices, NoRevokedToken, OneApprovalEach;
    forall r | r in t.pairings && t.pairings[r].device.Some?
      ensures exists i :: 0 <= i < |t.history| && MadeBy(t.history[i], r, t.pairings[r])
    {
      if r == row {
        assert MadeBy(t.history[|db.history|], r, t.pairings[r]);
      } else {
        var i :| 0 <= i < |db.history| && MadeBy(db.history[i], r, db.pairings[r]);
        assert MadeBy(t.history[i], r, t.pairings[r]);
      }
    }
  }

  lemma ApproveSound(db: Db, code: string, workspace: string, now: int)
    requires Sound(db) && db.clock <= now
    ensures Sound(ApprovePairing(db, code, workspace, now).1.(clock := now))
  {
    FewerSound(db, db.(clock := now));
    var rows := ActiveWithCode(db.pairings, code, now);
    if rows != {} && |LiveDevices(db.devices, workspace)| < MAX_DEVICES {
      var row := Newest(rows);
      var t := AfterApproval(db, row, workspace, now);
      assert ApprovePairing(db, code, workspace, now).1.(clock := now) == t;
      ApprovedDevices(db, row, workspace, now);
      ApprovedHistory(db, row, workspace, now);
      ApprovedRows(db, row, workspace, now);
      hide OneApprovalEach, RowsTrue, FewDevices, NoRevokedToken, ApprovePairing;
      assert NoneNew(db.pairings, db.clock, t.pairings, t.clock);
      NoneNewKeeps(db, t);
    }
  }

  // ---- every run ----

  lemma StepSound(db: Db, r: Request, now: int)
    requires Sound(db) && db.clock <= now
    ensures Sound(Step(db, r, now)) && Step(db, r, now).clock == now
  {
    hide Sound, StartPairing, PollPairing, ApprovePairing, RevokeDevice, ConsumeApproved;
    match r
    case Start(secret, ip, candidates) => StartSound(db, secret, ip, candidates, now);
    case Poll(secret) => PollSound(db, secret, now);
    case Approve(code, workspace) => ApproveSound(db, code, workspace, now);
    case Revoke(workspace, device) => RevokeSound(db, workspace, device, now);
    case Consume(device) => ConsumeSound(db, device, now);
  }

  /** Over every serial run: active codes are unique, an address never holds more than five, a workspace never has
      more than eight live TVs, devices and approvals correspond one to one within a workspace, no row is approved
      twice, and no revoked device holds a token. */
  lemma {:induction false} RunSound(start: int, rs: seq<(Request, int)>)
    requires Forward(start, rs)
    ensures Sound(Run(Initial(start), rs))
    ensures Run(Initial(start), rs).clock == if rs == [] then start else rs[|rs| - 1].1
  {
    if rs != [] {
      var n := |rs| - 1;
      RunSound(start, rs[..n]);
      hide Sound, Step;
      StepSound(Run(Initial(start), rs[..n]), rs[n].0, rs[n].1);
    }
  }

  lemma RevokedStep(db: Db, r: Request, now: int, d: nat)
    requires Sound(db) && d in db.devices && db.devices[d].revoked
    ensures d in Step(db, r, now).devices && Step(db, r, now).devices[d].revoked
  {
    hide CodesUnique, FewPerIp, FewDevices, OneApprovalEach, Cleaned, FreeCode;
  }

  /** Once revoked, a device stays revoked and without a token for the rest of every run. */
  lemma {:induction false} RevokedForever(start: int, rs: seq<(Request, int)>, n: nat, d: nat)
    requires Forward(start, rs) && n <= |rs|
    requires var db := Run(Initial(start), rs[..n]); d in db.devices && db.devices[d].revoked
    ensures var db := Run(Initial(start), rs);
            d in db.devices && db.devices[d].revoked && db.devices[d].token == None
    decreases |rs|
  {
    RunSound(start, rs);
    if n == |rs| {
      assert rs[..n] == rs;
    } else {
      var m := |rs| - 1;
      assert rs[..m][..n] == rs[..n];
      RevokedForever(start, rs[..m], n, d);
      RunSound(start, rs[..m]);
      hide CodesUnique, FewPerIp, FewDevices, OneApprovalEach, RowsTrue, Step;
      RevokedStep(Run(Initial(start), rs[..m]), rs[m].0, rs[m].1, d);
    }
  }

  /** A token only ever goes to the TV that showed the approved code: the device polled for was made by an
      approval of a code this very secret had started, for the workspace that approved it, at most fifteen minutes
      ago, and is not revoked. */
  lemma TokenGoesHome(db: Db, secret: string, now: int) returns (i: nat, row: nat)
    requires Sound(db) && PollPairing(db, secret, now).0.IsApproved?
    ensures var d := PollPairing(db, secret, now).0.device;
            && i < |db.history| && db.history[i].device == d && db.history[i].secret == secret
            && db.history[i].row == row && row in db.pairings && db.pairings[row].status == Approved
            && db.pairings[row].approvedAt.Some? && now <= db.pairings[row].approvedAt.value + APPROVED_TOKEN_WINDOW
            && d in db.devices && !db.devices[d].revoked && db.devices[d].workspace == db.history[i].workspace
  {
    row := Newest(RowsOf(db.pairings, secret));
    i :| 0 <= i < |db.history| && MadeBy(db.history[i], row, db.pairings[row]);
  }

  /** The whole pairing: a code that was started, approved in time by a workspace with room, and polled for in time
      gives the TV that started it a token for a new device of that workspace. */
  lemma PairingWorks(db: Db, secret: string, ip: Option<string>, candidates: seq<string>, now: int, workspace: string,
                     approved: int, polled: int) returns (code: string, s: Db, t: Db, u: Db)
    requires Sound(db) && db.clock <= now && StartPairing(db, secret, ip, candidates, now).0.StartedWith?
    requires now <= approved < now + CODE_TTL && approved <= polled <= approved + APPROVED_TOKEN_WINDOW
    requires |LiveDevices(db.devices, workspace)| < MAX_DEVICES
    ensures StartPairing(db, secret, ip, candidates, now) == (StartedWith(code, now + CODE_TTL), s)
    ensures ApprovePairing(s, code, workspace, approved) == (DeviceMade(db.nextDevice), t)
    ensures PollPairing(t, secret, polled) == (IsApproved(db.nextDevice, db.nextToken), u)
    ensures db.nextDevice !in db.devices
            && u.devices == db.devices[db.nextDevice := Device(workspace, Some(db.nextToken), false)]
  {
    s := StartPairing(db, secret, ip, candidates, now).1;
    code := StartPairing(db, secret, ip, candidates, now).0.code;
    StartedRow(db, secret, ip, candidates, now);
    hide StartPairing;
    var row := db.nextRow;
    assert row in ActiveWithCode(s.pairings, code, approved);
    assert Newest(ActiveWithCode(s.pairings, code, approved)) == row;
    t := ApprovePairing(s, code, workspace, approved).1;
    hide ApprovePairing;
    assert row in RowsOf(t.pairings, secret);
    assert Newest(RowsOf(t.pairings, secret)) == row;
    u := PollPairing(t, secret, polled).1;
  }

  lemma StartedRow(db: Db, secret: string, ip: Option<string>, candidates: seq<string>, now: int)
    requires Sound(db) && StartPairing(db, secret, ip, candidates, now).0.StartedWith?
    ensures var (started, s) := StartPairing(db, secret, ip, candidates, now);
            && started.expiresAt == now + CODE_TTL && IsSecret(secret) && db.nextRow in s.pairings
            && s.pairings[db.nextRow] == Pairing(started.code, secret, ip, Pending, now + CODE_TTL, None, None, None)
            && (forall r :: r in s.pairings ==> r <= db.nextRow)
            && s.devices == db.devices && s.nextDevice == db.nextDevice && s.nextToken == db.nextToken
            && db.nextDevice !in db.devices
  {
    hide CodesUnique, FewPerIp, FewDevices, OneApprovalEach, FreeCode, FirstTwelve;
  }

  // What the newest row of a secret says, and its device
  ghost predicate Waiting(p: Pairing, now: int) {
    p.status == Pending && now < p.expiresAt
  }

  ghost predicate TimelyApproved(p: Pairing, now: int) {
    p.status == Approved && p.device.Some? && p.approvedAt.Some? && now <= p.approvedAt.value + APPROVED_TOKEN_WINDOW
  }

  ghost predicate LiveDevice(db: Db, d: nat) {
    d in db.devices && !db.devices[d].revoked
  }

  /** What a poll is told, exactly: nothing is known of a secret without a row; a row that waits is pending; an approval
      in time gives a token for a live device and a refusal for one that is gone or revoked; a denied row is refused;
      everything else has expired. */
  lemma PollTells(db: Db, secret: string, now: int, row: nat)
    requires IsSecret(secret)
    ensures RowsOf(db.pairings, secret) == {} ==> PollPairing(db, secret, now).0 == IsUnknown
    ensures IsNewest(RowsOf(db.pairings, secret), row) ==>
              var reply, p := PollPairing(db, secret, now).0, db.pairings[row];
              && !reply.IsUnknown?
              && (reply.IsPending? <==> Waiting(p, now))
              && (reply.IsApproved? <==> TimelyApproved(p, now) && LiveDevice(db, p.device.value))
              && (reply.IsDenied? <==>
                    p.status == Denied || (TimelyApproved(p, now) && !LiveDevice(db, p.device.value)))
  {
    if IsNewest(RowsOf(db.pairings, secret), row) {
      assert Newest(RowsOf(db.pairings, secret)) == row;
    }
  }

  /** What a poll leaves behind: an approved one gives the device a new token, the first one after the code has run out
      closes the row, and every other one changes nothing. */
  lemma PollLeaves(db: Db, secret: string, now: int, row: nat)
    requires IsNewest(RowsOf(db.pairings, secret), row) && IsSecret(secret)
    ensures var (reply, t) := PollPairing(db, secret, now);
            var p := db.pairings[row];
            t == if reply.IsApproved? then
                   db.(devices := db.devices[reply.device := db.devices[reply.device].(token := Some(reply.token))],
                       nextToken := db.nextToken + 1)
                 else if p.status == Pending && !Waiting(p, now) then
                   db.(pairings := db.pairings[row := p.(status := Expired)])
                 else db
    ensures PollPairing(db, secret, now).0.IsApproved? ==>
              Some(PollPairing(db, secret, now).0.device) == db.pairings[row].device
              && PollPairing(db, secret, now).0.token == db.nextToken
  {
    assert Newest(RowsOf(db.pairings, secret)) == row;
  }

  /** A TV that starts again has no other code waiting, and what has been out of date for an hour is gone. */
  lemma StartReplaces(db: Db, secret: string, ip: Option<string>, candidates: seq<string>, now: int, row: nat)
    requires Sound(db) && StartPairing(db, secret, ip, candidates, now).0.StartedWith?
    ensures var t := StartPairing(db, secret, ip, candidates, now).1;
            && (row in t.pairings && t.pairings[row].secret == secret && t.pairings[row].status == Pending ==>
                  row == db.nextRow)
            && (row in t.pairings ==> t.pairings[row].expiresAt >= now - CLEANUP_AGE)
  {
    hide CodesUnique, FewPerIp, FewDevices, NoRevokedToken, OneApprovalEach, FreeCode, ActiveOfIp;
  }

  /** Only its own workspace can revoke a device, and only once; the device's rows go with it. */
  lemma RevokeTells(db: Db, workspace: string, d: nat)
    ensures var (done, t) := RevokeDevice(db, workspace, d);
            && (done <==> LiveDevice(db, d) && db.devices[d].workspace == workspace)
            && (!done ==> t == db)
            && (done ==> !LiveDevice(t, d) && d in t.devices && t.devices[d].token.None?
                         && forall row :: row in t.pairings ==> t.pairings[row].device != Some(d))
  {
  }

  /** A TV that has started and polls before anybody approved is told to wait for as long as its code lives, and that
      the code has expired from then on; the code cannot be approved any more either. */
  lemma StartedWaits(db: Db, secret: string, ip: Option<string>, candidates: seq<string>, now: int, later: int,
                     workspace: string)
    requires Sound(db) && db.clock <= now <= later && StartPairing(db, secret, ip, candidates, now).0.StartedWith?
    ensures var (reply, t) := StartPairing(db, secret, ip, candidates, now);
            && (later < now + CODE_TTL ==> PollPairing(t, secret, later).0 == IsPending)
            && (later >= now + CODE_TTL ==> PollPairing(t, secret, later).0 == IsExpired)
            && (later >= now + CODE_TTL ==> ApprovePairing(t, reply.code, workspace, later).0 == InvalidCode)
  {
    hide StartPairing, Sound, PollPairing;
    StartedRow(db, secret, ip, candidates, now);
    var (reply, t) := StartPairing(db, secret, ip, candidates, now);
    assert IsNewest(RowsOf(t.pairings, secret), db.nextRow);
    PollTells(t, secret, later, db.nextRow);
    StepSound(db, Start(secret, ip, candidates), now);
    NoneElse(Step(db, Start(secret, ip, candidates), now), db.nextRow, later);
  }

  // A code that has expired is nobody else's.
  lemma NoneElse(db: Db, row: nat, later: int)
    requires Sound(db) && row in db.pairings && Active(db.pairings[row], db.clock) && db.clock <= later
    ensures later >= db.pairings[row].expiresAt ==> ActiveWithCode(db.pairings, db.pairings[row].code, later) == {}
  {
    hide FewPerIp, FewDevices, NoRevokedToken, OneApprovalEach, RowsTrue;
    forall r | r in db.pairings && Active(db.pairings[r], later)
      ensures Active(db.pairings[r], db.clock)
    {
    }
  }

  // Requests that concern a row: another start with its secret, its approval, and what is done to its device
  ghost predicate Concerns(db: Db, req: Request, row: nat)
    requires row in db.pairings
  {
    var p := db.pairings[row];
    match req
    case Start(secret, _, _) => secret == p.secret
    case Poll(secret) => secret == p.secret
    case Approve(code, _) => code == p.code
    case Revoke(_, device) => p.device == Some(device)
    case Consume(device) => p.device == Some(device)
  }

  /** Nobody else's request touches a row that is not out of date, nor a device neither revoked nor polled for. */
  lemma OthersUntouched(db: Db, req: Request, now: int, row: nat, d: nat)
    requires Sound(db)
    ensures row in db.pairings && !Concerns(db, req, row) && now <= db.pairings[row].expiresAt + CLEANUP_AGE ==>
              row in Step(db, req, now).pairings && Step(db, req, now).pairings[row] == db.pairings[row]
    ensures d in db.devices && !(req.Revoke? && req.device == d)
            && !(req.Poll? && PollPairing(db, req.secret, now).0.IsApproved?
                 && PollPairing(db, req.secret, now).0.device == d) ==>
              d in Step(db, req, now).devices && Step(db, req, now).devices[d] == db.devices[d]
  {
    hide CodesUnique, FewPerIp, FewDevices, NoRevokedToken, OneApprovalEach, FreeCode, ActiveOfIp, LiveDevices;
  }

  /** Why an approval is refused: nobody waits with the code, or the workspace has eight live devices. */
  lemma ApproveRefused(db: Db, code: string, workspace: string, now: int)
    ensures var (reply, t) := ApprovePairing(db, code, workspace, now);
            && (reply.InvalidCode? <==> ActiveWithCode(db.pairings, code, now) == {})
            && (reply.TooManyDevices? <==>
                  ActiveWithCode(db.pairings, code, now) != {} && |LiveDevices(db.devices, workspace)| >= MAX_DEVICES)
            && (!reply.DeviceMade? ==> t == db)
  {
  }

  /** Why a start is refused: the secret is none, the address has five active codes, or every code tried is taken. */
  lemma StartRefused(db: Db, secret: string, ip: Option<string>, candidates: seq<string>, now: int)
    ensures var reply, rows := StartPairing(db, secret, ip, candidates, now).0, Cleaned(db.pairings, secret, now);
            && (reply.BadSecret? <==> !IsSecret(secret))
            && (reply.TooManyActive? <==>
                  IsSecret(secret) && ip.Some? && |ActiveOfIp(rows, ip.value, now)| >= MAX_ACTIVE_PER_IP)
            && (reply.NoCode? <==>
                  && IsSecret(secret) && !reply.TooManyActive?
                  && forall k :: 0 <= k < |candidates| && k < MAX_CANDIDATES ==>
                       ActiveWithCode(rows, candidates[k], now) != {})
            && (reply.StartedWith? ==>
                  && reply.expiresAt == now + CODE_TTL && ActiveWithCode(rows, reply.code, now) == {}
                  && exists k :: 0 <= k < |candidates| && k < MAX_CANDIDATES && candidates[k] == reply.code)
  {
    hide Cleaned, ActiveOfIp, ActiveWithCode, IsSecret;
    FreeCodeIs(Cleaned(db.pairings, secret, now), FirstTwelve(candidates), now);
  }

  lemma {:induction false} FreeCodeIs(pairings: map<nat, Pairing>, candidates: seq<string>, now: int)
    ensures var code := FreeCode(pairings, candidates, now);
            && (code.None? <==>
                  forall k :: 0 <= k < |candidates| ==> ActiveWithCode(pairings, candidates[k], now) != {})
            && (code.Some? ==>
                  ActiveWithCode(pairings, code.value, now) == {}
                  && exists k :: 0 <= k < |candidates| && candidates[k] == code.value)
  {
    hide ActiveWithCode;
    if candidates != [] {
      FreeCodeIs(pairings, candidates[1..], now);
      assert candidates == [candidates[0]] + candidates[1..];
      assert forall k :: 0 <= k < |candidates[1..]| ==> candidates[1..][k] == candidates[k + 1];
    }
  }

  /** That the steps are serial matters: if a device is revoked between the moment a poll has found it alive and
      the moment the poll stores the token, the revoked device is left with a token. */
  lemma InterleavedPollRevives(db: Db, secret: string, now: int)
    requires Sound(db) && PollPairing(db, secret, now).0.IsApproved?
    ensures var d := PollPairing(db, secret, now).0.device;
            var revoked := RevokeDevice(db, db.devices[d].workspace, d).1;
            var stored := revoked.(devices := revoked.devices[d := revoked.devices[d].(token := Some(db.nextToken))]);
            !NoRevokedToken(stored)
  {
    var i, row := TokenGoesHome(db, secret, now);
    hide Sound;
    var d := PollPairing(db, secret, now).0.device;
    var revoked := RevokeDevice(db, db.devices[d].workspace, d).1;
    var stored := revoked.(devices := revoked.devices[d := revoked.devices[d].(token := Some(db.nextToken))]);
    assert d in stored.devices && stored.devices[d].revoked && stored.devices[d].token.Some?;
  }
}
