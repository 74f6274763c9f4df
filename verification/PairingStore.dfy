/** The pairing functions as they run, statement by statement, on the two tables
    (next-frontend/app/lib/tvPairing.ts). Each is one step of module Pairing, whose results therefore hold here. */
module PairingStore {
  import opened Basics
  import opened P = Pairing

  class Store {
    var pairings: map<nat, Pairing>
    var devices: map<nat, Device>
    var nextRow: nat
    var nextDevice: nat
    var nextToken: nat
    var clock: int
    ghost var history: seq<Approval>

    ghost function Now(): Db
      reads this
    {
      Db(pairings, devices, nextRow, nextDevice, nextToken, clock, history)
    }

    ghost predicate Valid()
      reads this
    {
      Sound(Now())
    }

    constructor (now: int)
      ensures Valid() && Now() == Initial(now)
    {
      pairings, devices := map[], map[];
      nextRow, nextDevice, nextToken, clock, history := 0, 0, 0, now, [];
      new;
      RunSound(now, []);
    }

    method StartPairing(secret: string, ip: Option<string>, candidates: seq<string>, now: int) returns (reply: Started)
      requires Valid() && clock <= now
      modifies this
      ensures Valid() && Now() == Step(old(Now()), Start(secret, ip, candidates), now)
      ensures reply == P.StartPairing(old(Now()), secret, ip, candidates, now).0
      ensures reply.StartedWith? ==>
                forall r :: r in ActiveWithCode(pairings, reply.code, now) ==> pairings[r].secret == secret
    {
      hide Sound, ActiveWithCode, ActiveOfIp, FreeCode, FirstTwelve, IsSecret;
      StepSound(Now(), Start(secret, ip, candidates), now);
      CodeIsOwn(Now(), secret, ip, candidates, now);
      clock := now;
      if !IsSecret(secret) {
        return BadSecret;
      }
      pairings := map r | r in pairings && pairings[r].expiresAt >= now - CLEANUP_AGE :: pairings[r];
      pairings := map r | r in pairings && !(pairings[r].secret == secret && pairings[r].status == Pending)
                    :: pairings[r];
      assert pairings == Cleaned(old(pairings), secret, now);
      if ip.Some? {
        var active := |ActiveOfIp(pairings, ip.value, now)|;
        if active >= MAX_ACTIVE_PER_IP {
          return TooManyActive;
        }
      }
      var code := FindCode(candidates, now);
      if code.None? {
        return NoCode;
      }
      pairings := pairings[nextRow := Pairing(code.value, secret, ip, Pending, now + CODE_TTL, None, None, None)];
      nextRow := nextRow + 1;
      return StartedWith(code.value, now + CODE_TTL);
    }

    // At most twelve attempts
    method FindCode(candidates: seq<string>, now: int) returns (code: Option<string>)
      ensures code == FreeCode(pairings, FirstTwelve(candidates), now)
    {
      var proposed := FirstTwelve(candidates);
      for attempt := 0 to |proposed|
        invariant FreeCode(pairings, proposed, now) == FreeCode(pairings, proposed[attempt..], now)
      {
        if ActiveWithCode(pairings, proposed[attempt], now) == {} {
          return Some(proposed[attempt]);
        }
      }
      return None;
    }

    method PollPairing(secret: string, now: int) returns (reply: Polled)
      requires Valid() && clock <= now
      modifies this
      ensures Valid() && Now() == Step(old(Now()), Poll(secret), now)
      ensures reply == P.PollPairing(old(Now()), secret, now).0
      ensures reply.IsApproved? ==>
                && reply.device in devices && devices[reply.device].token == Some(reply.token)
                && !devices[reply.device].revoked
                && ApprovedFor(history, secret, reply.device, devices[reply.device].workspace)
    {
      hide Sound, ApprovedFor;
      StepSound(Now(), Poll(secret), now);
      TokenIsOwn(Now(), secret, now);
      clock := now;
      if !IsSecret(secret) {
        return IsUnknown;
      }
      var rows := RowsOf(pairings, secret);
      if rows == {} {
        return IsUnknown;
      }
      var row := Newest(rows);
      var p := pairings[row];
      if p.status == Pending {
        if p.expiresAt <= now {
          pairings := pairings[row := p.(status := Expired)];
          return IsExpired;
        }
        return IsPending;
      }
      if p.status != Approved || p.device.None? {
        return if p.status == Denied then IsDenied else IsExpired;
      }
      if p.approvedAt.None? || now - p.approvedAt.value > APPROVED_TOKEN_WINDOW {
        return IsExpired;
      }
      var d := p.device.value;
      if d !in devices || devices[d].revoked {
        return IsDenied;
      }
      var token := nextToken;
      nextToken := nextToken + 1;
      devices := devices[d := devices[d].(token := Some(token))];
      return IsApproved(d, token);
    }

    method ApprovePairing(code: string, workspace: string, now: int) returns (reply: ApproveReply)
      requires Valid() && clock <= now
      modifies this
      ensures Valid() && Now() == Step(old(Now()), Approve(code, workspace), now)
      ensures reply == P.ApprovePairing(old(Now()), code, workspace, now).0
      ensures reply.DeviceMade? ==> reply.device !in old(devices) && ActiveWithCode(pairings, code, now) == {}
    {
      hide Sound;
      StepSound(Now(), Approve(code, workspace), now);
      CodeIsClaimed(Now(), code, workspace, now);
      clock := now;
      var rows := ActiveWithCode(pairings, code, now);
      if rows == {} {
        return InvalidCode;
      }
      var live := |LiveDevices(devices, workspace)|;
      if live >= MAX_DEVICES {
        return TooManyDevices;
      }
      var row := Newest(rows);
      var p := pairings[row];
      pairings := pairings[row := p.(status := Approved, workspace := Some(workspace), approvedAt := Some(now))];
      var d := nextDevice;
      nextDevice := nextDevice + 1;
      devices := devices[d := Device(workspace, None, false)];
      pairings := pairings[row := pairings[row].(device := Some(d))];
      history := history + [Approval(row, p.code, p.secret, workspace, d)];
      assert pairings == P.ApprovePairing(old(Now()), code, workspace, now).1.pairings;
      return DeviceMade(d);
    }

    method RevokeTvDevice(workspace: string, d: nat, now: int) returns (done: bool)
      requires Valid() && clock <= now
      modifies this
      ensures Valid() && Now() == Step(old(Now()), Revoke(workspace, d), now)
      ensures done == RevokeDevice(old(Now()), workspace, d).0
      ensures done ==> NoPollFor(Now(), d)
    {
      hide Sound, NoPollFor;
      RevokedNoPoll(Now(), workspace, d, now);
      StepSound(Now(), Revoke(workspace, d), now);
      clock := now;
      if d !in devices || devices[d].workspace != workspace || devices[d].revoked {
        return false;
      }
      devices := devices[d := devices[d].(revoked := true, token := None)];
      pairings := map r | r in pairings && pairings[r].device != Some(d) :: pairings[r];
      return true;
    }

    method ConsumeApprovedPairings(d: nat, now: int)
      requires Valid() && clock <= now
      modifies this
      ensures Valid() && Now() == Step(old(Now()), Consume(d), now)
      ensures NoPollFor(Now(), d)
    {
      hide Sound, NoPollFor;
      ConsumedNoPoll(Now(), d, now);
      StepSound(Now(), Consume(d), now);
      clock := now;
      pairings := map r | r in pairings && !(pairings[r].device == Some(d) && pairings[r].status == Approved)
                    :: pairings[r];
    }
  }

  // ---- what the replies mean for the caller ----

  // The device was made by an approval, for this workspace, of a code this secret had started.
  ghost predicate ApprovedFor(history: seq<Approval>, secret: string, d: nat, workspace: string) {
    exists i :: 0 <= i < |history| && history[i].device == d && history[i].secret == secret
                && history[i].workspace == workspace
  }

  // No poll gives a token for the device any more.
  ghost predicate NoPollFor(db: Db, d: nat) {
    forall secret, now :: var reply := P.PollPairing(db, secret, now).0; reply.IsApproved? ==> reply.device != d
  }

  // Nobody else has the code that is handed out.
  lemma CodeIsOwn(db: Db, secret: string, ip: Option<string>, candidates: seq<string>, now: int)
    requires Sound(db) && db.clock <= now
    ensures var (reply, t) := P.StartPairing(db, secret, ip, candidates, now);
            reply.StartedWith? ==>
              forall r :: r in ActiveWithCode(t.pairings, reply.code, now) ==> t.pairings[r].secret == secret
  {
    hide FewPerIp, FewDevices, NoRevokedToken, OneApprovalEach, FreeCode, FirstTwelve;
    StepSound(db, Start(secret, ip, candidates), now);
    var (reply, t) := P.StartPairing(db, secret, ip, candidates, now);
    if reply.StartedWith? {
      assert CodesUnique(Step(db, Start(secret, ip, candidates), now));
      assert Active(t.pairings[db.nextRow], now);
    }
  }

  lemma TokenIsOwn(db: Db, secret: string, now: int)
    requires Sound(db)
    ensures var reply := P.PollPairing(db, secret, now).0;
            reply.IsApproved? ==>
              && reply.device in db.devices
              && ApprovedFor(db.history, secret, reply.device, db.devices[reply.device].workspace)
  {
    hide Sound, P.PollPairing;
    if P.PollPairing(db, secret, now).0.IsApproved? {
      var i, row := TokenGoesHome(db, secret, now);
    }
  }

  // A code is claimed once.
  lemma CodeIsClaimed(db: Db, code: string, workspace: string, now: int)
    requires Sound(db) && db.clock <= now
    ensures var (reply, t) := P.ApprovePairing(db, code, workspace, now);
            reply.DeviceMade? ==> reply.device !in db.devices && ActiveWithCode(t.pairings, code, now) == {}
  {
    hide FewPerIp, FewDevices, NoRevokedToken, OneApprovalEach;
    var rows := ActiveWithCode(db.pairings, code, now);
    if rows != {} {
      var row := Newest(rows);
      forall r | r in rows
        ensures r == row
      {
        assert Active(db.pairings[r], db.clock) && Active(db.pairings[row], db.clock);
      }
    }
  }

  lemma RevokedNoPoll(db: Db, workspace: string, d: nat, now: int)
    ensures RevokeDevice(db, workspace, d).0 ==> NoPollFor(Step(db, Revoke(workspace, d), now), d)
  {
  }

  lemma ConsumedNoPoll(db: Db, d: nat, now: int)
    ensures NoPollFor(Step(db, Consume(d), now), d)
  {
  }
}
