/** The fixed-window request limiter of the TV endpoints (next-frontend/app/lib/tvRateLimit.ts). Times are integer
    milliseconds from a clock that does not run backwards. */
module RateLimit {
  import opened Basics

  const MAX_BUCKETS := 5000

  datatype Bucket = Bucket(count: nat, resetAt: int)

  datatype Answer = Answer(ok: bool, remaining: int, retryAfter: int)

  datatype Request = Request(key: string, limit: nat, window: nat, now: int)

  type Buckets = map<string, Bucket>

  function Pruned(buckets: Buckets, now: int): Buckets {
    if |buckets| < MAX_BUCKETS then buckets
    else map key | key in buckets && buckets[key].resetAt > now :: buckets[key]
  }

  // The answer to one request and the buckets after it
  function Check(buckets: Buckets, r: Request): (Answer, Buckets) {
    if r.key !in buckets || buckets[r.key].resetAt <= r.now then
      (Answer(true, r.limit - 1, 0), buckets[r.key := Bucket(1, r.now + r.window)])
    else
      var b := buckets[r.key];
      if b.count >= r.limit then (Answer(false, 0, Max(0, b.resetAt - r.now)), buckets)
      else (Answer(true, r.limit - (b.count + 1), 0), buckets[r.key := b.(count := b.count + 1)])
  }

  class Limiter {
    var buckets: Buckets

    constructor ()
      ensures buckets == map[]
    {
      buckets := map[];
    }

    method Prune(now: int)
      modifies this
      ensures buckets == Pruned(old(buckets), now)
    {
      if |buckets| < MAX_BUCKETS {
        return;
      }
      var keys := buckets.Keys;
      while keys != {}
        invariant keys <= old(buckets).Keys
        invariant forall k :: k in buckets <==> k in old(buckets) && (k in keys || old(buckets)[k].resetAt > now)
        invariant forall k :: k in buckets ==> buckets[k] == old(buckets)[k]
        decreases |keys|
      {
        var k :| k in keys;
        keys := keys - {k};
        if buckets[k].resetAt <= now {
          buckets := buckets - {k};
        }
      }
    }

    method CheckRateLimit(key: string, limit: nat, window: nat, now: int) returns (answer: Answer)
      modifies this
      ensures (answer, buckets) == Check(Pruned(old(buckets), now), Request(key, limit, window, now))
    {
      Prune(now);
      if key !in buckets || buckets[key].resetAt <= now {
        buckets := buckets[key := Bucket(1, now + window)];
        return Answer(true, limit - 1, 0);
      }
      var existing := buckets[key];
      if existing.count >= limit {
        return Answer(false, 0, Max(0, existing.resetAt - now));
      }
      buckets := buckets[key := existing.(count := existing.count + 1)];
      return Answer(true, limit - (existing.count + 1), 0);
    }
  }

  // ---- runs ----

  function Step(buckets: Buckets, r: Request, pruning: bool): (Answer, Buckets) {
    Check(if pruning then Pruned(buckets, r.now) else buckets, r)
  }

  function Run(rs: seq<Request>, pruning: bool): Buckets {
    if rs == [] then map[] else Step(Run(rs[..|rs| - 1], pruning), rs[|rs| - 1], pruning).1
  }

  // The answer to request i of a run
  function AnswerAt(rs: seq<Request>, i: nat, pruning: bool): Answer
    requires i < |rs|
  {
    Step(Run(rs[..i], pruning), rs[i], pruning).0
  }

  ghost predicate Clock(rs: seq<Request>) {
    forall i, j :: 0 <= i <= j < |rs| ==> rs[i].now <= rs[j].now
  }

  /** Pruning keeps every bucket that is still counting, and from the size limit on none of the others. */
  lemma PrunedIs(buckets: Buckets, now: int, key: string)
    ensures key in Pruned(buckets, now) ==> key in buckets && Pruned(buckets, now)[key] == buckets[key]
    ensures key in buckets && buckets[key].resetAt > now ==> key in Pruned(buckets, now)
    ensures |buckets| >= MAX_BUCKETS && key in Pruned(buckets, now) ==> buckets[key].resetAt > now
    ensures |buckets| < MAX_BUCKETS ==> Pruned(buckets, now) == buckets
  {
  }

  // ---- pruning is invisible ----

  // Whatever differs is out of date.
  ghost predicate SameFrom(a: Buckets, b: Buckets, now: int) {
    && (forall k :: k in a && a[k].resetAt > now ==> k in b && b[k] == a[k])
    && (forall k :: k in b && b[k].resetAt > now ==> k in a && a[k] == b[k])
  }

  lemma CheckSame(a: Buckets, b: Buckets, r: Request)
    requires SameFrom(a, b, r.now)
    ensures Check(a, r).0 == Check(b, r).0 && SameFrom(Check(a, r).1, Check(b, r).1, r.now)
  {
  }

  lemma {:induction false} RunsSame(rs: seq<Request>, now: int)
    requires Clock(rs) && (rs != [] ==> rs[|rs| - 1].now <= now)
    ensures SameFrom(Run(rs, true), Run(rs, false), now)
  {
    if rs != [] {
      var n := |rs| - 1;
      RunsSame(rs[..n], rs[n].now);
      CheckSame(Pruned(Run(rs[..n], true), rs[n].now), Run(rs[..n], false), rs[n]);
    }
  }

  /** No answer in any run would be different if old buckets were never pruned. */
  lemma PruningInvisible(rs: seq<Request>, i: nat)
    requires Clock(rs) && i < |rs|
    ensures AnswerAt(rs, i, true) == AnswerAt(rs, i, false)
  {
    RunsSame(rs[..i], rs[i].now);
    CheckSame(Pruned(Run(rs[..i], true), rs[i].now), Run(rs[..i], false), rs[i]);
  }

  /** The waiting time of a refusal is exact: the same request is refused at every moment before it is over, and let
      through at every moment after. */
  lemma RetryAfterExact(buckets: Buckets, r: Request, later: int)
    requires !Check(buckets, r).0.ok && r.now <= later
    ensures var (answer, after) := Check(buckets, r);
            Check(after, r.(now := later)).0.ok <==> later >= r.now + answer.retryAfter
  {
  }

  /** What an answer says remains is exactly how many more requests would get through at once. */
  lemma {:induction false} RemainingExact(buckets: Buckets, r: Request, k: nat)
    requires Check(buckets, r).0.ok && r.window > 0 && r.limit > 0
    ensures Repeated(Check(buckets, r).1, r, k) <==> k <= Check(buckets, r).0.remaining
    decreases k
  {
    if k > 0 {
      var (answer, after) := Check(buckets, r);
      if Check(after, r).0.ok {
        RemainingExact(after, r, k - 1);
      }
    }
  }

  // The request gets through k times in a row.
  ghost predicate Repeated(buckets: Buckets, r: Request, k: nat)
    decreases k
  {
    k == 0 || (Check(buckets, r).0.ok && Repeated(Check(buckets, r).1, r, k - 1))
  }

  // ---- how many requests get through ----

  // One window of a key: when it was opened and how many requests it let through
  datatype Window = Window(start: int, granted: nat)

  ghost predicate Fixed(rs: seq<Request>, key: string, limit: nat, window: nat) {
    forall i :: 0 <= i < |rs| && rs[i].key == key ==> rs[i].limit == limit && rs[i].window == window
  }

  // Requests for the key that were let through at a time in [t, t + window)
  ghost function Granted(rs: seq<Request>, key: string, t: int, window: nat): nat {
    if rs == [] then 0
    else
      var n := |rs| - 1;
      Granted(rs[..n], key, t, window) +
      if rs[n].key == key && t <= rs[n].now < t + window && AnswerAt(rs, n, true).ok then 1 else 0
  }

  // The windows after one more request for their key
  ghost function Extend(ws: seq<Window>, buckets: Buckets, r: Request): seq<Window> {
    if !Check(buckets, r).0.ok then ws
    else if ws == [] || r.key !in buckets || buckets[r.key].resetAt <= r.now then ws + [Window(r.now, 1)]
    else ws[|ws| - 1 := Window(ws[|ws| - 1].start, ws[|ws| - 1].granted + 1)]
  }

  // All windows the run opened for the key
  ghost function Windows(rs: seq<Request>, key: string): (ws: seq<Window>)
  {
    if rs == [] then []
    else
      var n := |rs| - 1;
      var ws := Windows(rs[..n], key);
      if rs[n].key == key then Extend(ws, Pruned(Run(rs[..n], true), rs[n].now), rs[n]) else ws
  }

  // Windows follow each other at least a window apart, none lets more through than the limit, and the last one
  // is the key's bucket as long as that bucket counts.
  ghost predicate Spaced(ws: seq<Window>, limit: nat, window: nat) {
    && (forall i, j :: 0 <= i && j == i + 1 < |ws| ==> ws[j].start >= ws[i].start + window)
    && (forall i :: 0 <= i < |ws| ==> 1 <= ws[i].granted <= limit)
  }

  ghost predicate LastIs(ws: seq<Window>, buckets: Buckets, key: string, window: nat, now: int) {
    && (key in buckets && buckets[key].resetAt > now ==>
          ws != [] && buckets[key] == Bucket(ws[|ws| - 1].granted, ws[|ws| - 1].start + window))
    && (ws != [] && ws[|ws| - 1].start + window > now ==> key in buckets && buckets[key].resetAt > now)
  }

  lemma LastIsLater(ws: seq<Window>, b: Buckets, c: Buckets, key: string, window: nat, now: int, later: int)
    requires LastIs(ws, b, key, window, now) && now <= later && SameFrom(b, c, now)
    ensures LastIs(ws, c, key, window, later)
  {
  }

  lemma PrunedSame(buckets: Buckets, now: int)
    ensures SameFrom(buckets, Pruned(buckets, now), now)
    ensures forall k :: k in Pruned(buckets, now) ==> k in buckets
  {
  }

  lemma ExtendSpaced(ws: seq<Window>, b: Buckets, r: Request)
    requires Spaced(ws, r.limit, r.window) && LastIs(ws, b, r.key, r.window, r.now) && r.limit > 0
    requires ws != [] ==> ws[|ws| - 1].start <= r.now
    ensures var more := Extend(ws, b, r);
            && Spaced(more, r.limit, r.window) && LastIs(more, Check(b, r).1, r.key, r.window, r.now)
            && (more != [] ==> more[|more| - 1].start <= r.now)
  {
  }

  lemma {:induction false} WindowsSpaced(rs: seq<Request>, key: string, limit: nat, window: nat, now: int)
    requires Clock(rs) && Fixed(rs, key, limit, window) && limit > 0
    requires rs != [] ==> rs[|rs| - 1].now <= now
    ensures var ws := Windows(rs, key);
            Spaced(ws, limit, window) && LastIs(ws, Run(rs, true), key, window, now)
            && (ws != [] ==> ws[|ws| - 1].start <= now)
    decreases |rs|, 1
  {
    if rs != [] {
      var n := |rs| - 1;
      var r := rs[n];
      WindowsBefore(rs, key, limit, window);
      var ws, pruned := Windows(rs[..n], key), Pruned(Run(rs[..n], true), r.now);
      assert Run(rs, true) == Check(pruned, r).1;
      hide Run, Pruned, Spaced, Extend, LastIs, Check;
      if r.key == key {
        ExtendSpaced(ws, pruned, r);
      } else {
        OtherKey(ws, pruned, r, key, window);
      }
      SameSelf(Run(rs, true), r.now);
      LastIsLater(Windows(rs, key), Run(rs, true), Run(rs, true), key, window, r.now, now);
    }
  }

  // How things stand when the last request comes in, after pruning
  lemma {:induction false} WindowsBefore(rs: seq<Request>, key: string, limit: nat, window: nat)
    requires Clock(rs) && Fixed(rs, key, limit, window) && limit > 0 && rs != []
    ensures var n := |rs| - 1;
            var ws, now := Windows(rs[..n], key), rs[n].now;
            && Spaced(ws, limit, window) && LastIs(ws, Pruned(Run(rs[..n], true), now), key, window, now)
            && (ws != [] ==> ws[|ws| - 1].start <= now)
    decreases |rs|, 0
  {
    var n := |rs| - 1;
    var before, now := Run(rs[..n], true), rs[n].now;
    WindowsSpaced(rs[..n], key, limit, window, now);
    PrunedSame(before, now);
    hide Run, Pruned, Spaced;
    LastIsLater(Windows(rs[..n], key), before, Pruned(before, now), key, window, now, now);
  }

  lemma SameSelf(b: Buckets, now: int)
    ensures SameFrom(b, b, now)
  {
  }

  lemma OtherKey(ws: seq<Window>, b: Buckets, r: Request, key: string, window: nat)
    requires LastIs(ws, b, key, window, r.now) && r.key != key
    ensures LastIs(ws, Check(b, r).1, key, window, r.now)
  {
  }

  // The most a window can have let through in [t, t + window): its first request came right at its start.
  ghost function Share(w: Window, t: int, window: nat): int {
    if w.start <= t - window || w.start >= t + window then 0
    else if w.start < t then w.granted - 1
    else w.granted
  }

  ghost function Shares(ws: seq<Window>, t: int, window: nat): int {
    if ws == [] then 0 else Shares(ws[..|ws| - 1], t, window) + Share(ws[|ws| - 1], t, window)
  }

  // A request that gets through adds to the share of its window exactly when it falls into the stretch.
  lemma ExtendShares(ws: seq<Window>, b: Buckets, r: Request, t: int)
    requires Spaced(ws, r.limit, r.window) && LastIs(ws, b, r.key, r.window, r.now) && r.limit > 0
    requires ws != [] ==> ws[|ws| - 1].start <= r.now
    ensures Shares(Extend(ws, b, r), t, r.window) >=
            Shares(ws, t, r.window) + if t <= r.now < t + r.window && Check(b, r).0.ok then 1 else 0
  {
    assert (ws + [Window(r.now, 1)])[..|ws|] == ws;
    if ws != [] {
      var w := Window(ws[|ws| - 1].start, ws[|ws| - 1].granted + 1);
      assert ws[|ws| - 1 := w][..|ws| - 1] == ws[..|ws| - 1];
    }
  }

  lemma {:induction false} GrantedAtMostShares(rs: seq<Request>, key: string, limit: nat, window: nat, t: int)
    requires Clock(rs) && Fixed(rs, key, limit, window) && limit > 0
    ensures Granted(rs, key, t, window) <= Shares(Windows(rs, key), t, window)
  {
    if rs != [] {
      var n := |rs| - 1;
      GrantedAtMostShares(rs[..n], key, limit, window, t);
      WindowsBefore(rs, key, limit, window);
      if rs[n].key == key {
        ExtendShares(Windows(rs[..n], key), Pruned(Run(rs[..n], true), rs[n].now), rs[n], t);
      }
    }
  }

  lemma {:induction false} OldShares(ws: seq<Window>, limit: nat, window: nat, t: int)
    requires Spaced(ws, limit, window) && (ws != [] ==> ws[|ws| - 1].start <= t - window)
    ensures Shares(ws, t, window) == 0
  {
    if |ws| > 1 {
      assert ws[|ws| - 1].start >= ws[|ws| - 2].start + window;
      SpacedPrefix(ws, limit, window);
      OldShares(ws[..|ws| - 1], limit, window, t);
    } else if |ws| == 1 {
      assert ws[..0] == [];
    }
  }

  lemma SpacedPrefix(ws: seq<Window>, limit: nat, window: nat)
    requires Spaced(ws, limit, window) && ws != []
    ensures Spaced(ws[..|ws| - 1], limit, window)
  {
  }

  lemma {:induction false} SharesBounded(ws: seq<Window>, limit: nat, window: nat, t: int)
    requires Spaced(ws, limit, window) && limit > 0 && window > 0
    ensures Shares(ws, t, window) <= 2 * limit - 1
    ensures (ws != [] ==> ws[|ws| - 1].start < t) ==> Shares(ws, t, window) <= limit - 1
  {
    if ws != [] {
      var n := |ws| - 1;
      SpacedPrefix(ws, limit, window);
      SharesBounded(ws[..n], limit, window, t);
      assert 1 <= ws[n].granted <= limit;
      if n > 0 {
        assert ws[n].start >= ws[n - 1].start + window;
        assert ws[..n][n - 1] == ws[n - 1];
        if ws[n - 1].start <= t - window {
          OldShares(ws[..n], limit, window, t);
        }
      } else {
        assert Shares(ws[..0], t, window) == 0;
      }
    }
  }

  /** In any stretch of time as long as the window, at most 2 * limit - 1 requests of one key get through. */
  lemma GrantedBounded(rs: seq<Request>, key: string, limit: nat, window: nat, t: int)
    requires Clock(rs) && Fixed(rs, key, limit, window) && limit > 0 && window > 0
    ensures Granted(rs, key, t, window) <= 2 * limit - 1
  {
    GrantedAtMostShares(rs, key, limit, window, t);
    if rs != [] {
      WindowsSpaced(rs, key, limit, window, rs[|rs| - 1].now);
    }
    SharesBounded(Windows(rs, key), limit, window, t);
  }

  // ---- the bound is the best one ----

  ghost function Again(r: Request, n: nat): (rs: seq<Request>)
    ensures |rs| == n && forall i :: 0 <= i < n ==> rs[i] == r
  {
    if n == 0 then [] else Again(r, n - 1) + [r]
  }

  // A run of one key that has used up count of its window's limit
  ghost predicate Holds(rs: seq<Request>, key: string, count: nat, resetAt: int) {
    Run(rs, true) == map[key := Bucket(count, resetAt)]
  }

  lemma FewBuckets(key: string, b: Bucket, now: int)
    ensures Pruned(map[], now) == map[]
    ensures Pruned(map[key := b], now) == map[key := b]
  {
    var none: Buckets := map[];
    assert none.Keys == {} && map[key := b].Keys == {key};
  }

  // A request that opens a window
  lemma Opens(rs: seq<Request>, r: Request, t: int)
    requires rs == [] || exists count, resetAt :: Holds(rs, r.key, count, resetAt) && resetAt <= r.now
    ensures Holds(rs + [r], r.key, 1, r.now + r.window)
    ensures Granted(rs + [r], r.key, t, r.window)
            == Granted(rs, r.key, t, r.window) + if t <= r.now < t + r.window then 1 else 0
  {
    assert (rs + [r])[..|rs|] == rs;
    if rs == [] {
      FewBuckets(r.key, Bucket(0, 0), r.now);
    } else {
      var count: nat, resetAt: int :| Holds(rs, r.key, count, resetAt) && resetAt <= r.now;
      FewBuckets(r.key, Bucket(count, resetAt), r.now);
    }
  }

  // A request in a window that has room for it
  lemma Counts(rs: seq<Request>, r: Request, count: nat, resetAt: int, t: int)
    requires Holds(rs, r.key, count, resetAt) && r.now < resetAt && count < r.limit
    ensures Holds(rs + [r], r.key, count + 1, resetAt)
    ensures Granted(rs + [r], r.key, t, r.window)
            == Granted(rs, r.key, t, r.window) + if t <= r.now < t + r.window then 1 else 0
  {
    assert (rs + [r])[..|rs|] == rs;
    FewBuckets(r.key, Bucket(count, resetAt), r.now);
  }

  // The same request n times within a window that has room for them
  lemma {:induction false} Fills(rs: seq<Request>, r: Request, n: nat, count: nat, resetAt: int, t: int)
    requires Holds(rs, r.key, count, resetAt) && r.now < resetAt && count + n <= r.limit
    ensures Holds(rs + Again(r, n), r.key, count + n, resetAt)
    ensures Granted(rs + Again(r, n), r.key, t, r.window)
            == Granted(rs, r.key, t, r.window) + if t <= r.now < t + r.window then n else 0
  {
    hide Holds, Granted;
    if n == 0 {
      assert rs + Again(r, 0) == rs;
    } else {
      var before := rs + Again(r, n - 1);
      Fills(rs, r, n - 1, count, resetAt, t);
      Counts(before, r, count + n - 1, resetAt, t);
      assert rs + Again(r, n) == before + [r];
    }
  }

  // One request opens a window, the rest of its limit comes at its last moment, and the next window's right after.
  ghost function Burst(key: string, limit: nat, window: nat): seq<Request>
    requires limit > 0
  {
    [Request(key, limit, window, 0)] + Again(Request(key, limit, window, window - 1), limit - 1)
    + [Request(key, limit, window, window)] + Again(Request(key, limit, window, window), limit - 1)
  }

  /** No smaller bound holds, for any limit and any window of more than one moment: 2 * limit - 1 requests get through
      within one window's length of the last moment of a window. */
  lemma BoundIsReached(key: string, limit: nat, window: nat)
    requires limit > 0 && window > 1
    ensures var rs := Burst(key, limit, window);
            Clock(rs) && Fixed(rs, key, limit, window) && Granted(rs, key, window - 1, window) == 2 * limit - 1
  {
    var t := window - 1;
    var first := Request(key, limit, window, 0);
    var late, next := Request(key, limit, window, t), Request(key, limit, window, window);
    hide Run, Granted, Check, Pruned;
    GrantedNone(key, t, window);
    Opens([], first, t);
    assert [] + [first] == [first];
    Fills([first], late, limit - 1, 1, window, t);
    var rs := [first] + Again(late, limit - 1);
    assert Holds(rs, key, limit, window);
    Opens(rs, next, t);
    Fills(rs + [next], next, limit - 1, 1, window + window, t);
  }

  lemma GrantedNone(key: string, t: int, window: nat)
    ensures Granted([], key, t, window) == 0
  {
  }

  /** In a window of a single moment the limit itself is the bound. */
  lemma {:induction false} MomentBounded(rs: seq<Request>, key: string, limit: nat, t: int)
    requires Clock(rs) && Fixed(rs, key, limit, 1) && limit > 0
    ensures Granted(rs, key, t, 1) <= limit
  {
    GrantedAtMostShares(rs, key, limit, 1, t);
    if rs != [] {
      WindowsSpaced(rs, key, limit, 1, rs[|rs| - 1].now);
    }
    MomentShares(Windows(rs, key), limit, t);
  }

  lemma {:induction false} MomentShares(ws: seq<Window>, limit: nat, t: int)
    requires Spaced(ws, limit, 1) && limit > 0
    ensures Shares(ws, t, 1) <= limit
  {
    if ws != [] {
      var n := |ws| - 1;
      SpacedPrefix(ws, limit, 1);
      MomentShares(ws[..n], limit, t);
      if n > 0 && ws[n].start == t {
        assert ws[n].start >= ws[n - 1].start + 1 && ws[..n][n - 1] == ws[n - 1];
        OldShares(ws[..n], limit, 1, t);
      } else if n == 0 {
        assert Shares(ws[..0], t, 1) == 0;
      }
    }
  }
}
