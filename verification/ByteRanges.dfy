/** Cutting a file into byte ranges (next-frontend/app/lib/workerConnection.ts) and serving one of them
    (python-worker/streamlift_worker/server.py). */
module ByteRanges {
  import opened Basics
  import opened Decimal

  // ---- the browser: parts of a transfer ----

  datatype Status = Pending | Downloading | Completed | Failed

  // lastAuto is the reconnect count a failed part leaves behind
  datatype Part = Part(index: nat, start: nat, end: nat, received: nat, status: Status, lastAuto: nat)
  {
    function Size(): int {
      end - start + 1
    }

    predicate Full() {
      received == Size()
    }
  }

  // Non-empty ranges, one after the other, from 0 to the last byte
  ghost predicate Tiles(parts: seq<Part>, total: nat) {
    && parts != []
    && parts[0].start == 0
    && parts[|parts| - 1].end + 1 == total
    && (forall i :: 0 <= i < |parts| ==> parts[i].index == i && parts[i].start <= parts[i].end)
    && (forall i, j :: 0 <= i < |parts| && j == i + 1 < |parts| ==> parts[j].start == parts[i].end + 1)
  }

  lemma {:induction false} TilesOrdered(parts: seq<Part>, total: nat, i: nat, j: nat)
    requires Tiles(parts, total) && i < j < |parts|
    ensures parts[i].end < parts[j].start
    decreases j
  {
    if i + 1 < j {
      TilesOrdered(parts, total, i, j - 1);
      assert parts[j].start == parts[j - 1].end + 1;
    }
  }

  lemma TilesWithin(parts: seq<Part>, total: nat, i: nat)
    requires Tiles(parts, total) && i < |parts|
    ensures parts[i].end < total
  {
    if i < |parts| - 1 {
      TilesOrdered(parts, total, i, |parts| - 1);
    }
  }

  lemma {:induction false} TilesFind(parts: seq<Part>, total: nat, p: nat, n: nat) returns (i: nat)
    requires Tiles(parts, total) && 0 < n <= |parts| && p <= parts[n - 1].end
    ensures i < n && parts[i].start <= p <= parts[i].end
  {
    if parts[n - 1].start <= p {
      return n - 1;
    }
    assert n > 1;
    assert parts[n - 1].start == parts[n - 2].end + 1;
    i := TilesFind(parts, total, p, n - 1);
  }

  /** Every byte of the file lies in exactly one part, and the parts hold nothing else. */
  lemma TilesOnce(parts: seq<Part>, total: nat, p: nat)
    requires Tiles(parts, total)
    ensures p < total <==> exists i :: 0 <= i < |parts| && parts[i].start <= p <= parts[i].end
    ensures forall i, j :: (0 <= i < |parts| && 0 <= j < |parts| && parts[i].start <= p <= parts[i].end
                            && parts[j].start <= p <= parts[j].end) ==> i == j
  {
    if p < total {
      var i := TilesFind(parts, total, p, |parts|);
    }
    forall i | 0 <= i < |parts|
      ensures parts[i].end < total
    {
      TilesWithin(parts, total, i);
    }
    forall i, j | 0 <= i < j < |parts|
      ensures parts[i].end < parts[j].start
    {
      TilesOrdered(parts, total, i, j);
    }
  }

  function CeilDiv(a: nat, b: nat): nat
    requires b > 0
  {
    (a + b - 1) / b
  }

  // maxParts and minSize come from the environment, which only lets positive numbers through.
  function GetMaxPartsForSize(total: int, maxParts: nat, minSize: nat): (n: nat)
    requires maxParts > 0 && minSize > 0
    ensures 1 <= n <= maxParts
  {
    if total <= 0 then 1 else Max(1, Min(maxParts, total / minSize))
  }

  /** Whenever a file is split at all, an even share of it is at least the smallest part allowed. */
  lemma SharesAreBigEnough(total: int, maxParts: nat, minSize: nat)
    requires maxParts > 0 && minSize > 0
    ensures var n := GetMaxPartsForSize(total, maxParts, minSize); n > 1 ==> total >= n * minSize
  {
    var n := GetMaxPartsForSize(total, maxParts, minSize);
    if n > 1 {
      var q := total / minSize;
      assert total >= q * minSize;
      assert (q - n) * minSize >= 0;
    }
  }

  /** There are as many parts as that allows, up to the most. */
  lemma MostParts(total: int, maxParts: nat, minSize: nat)
    requires maxParts > 0 && minSize > 0
    ensures var n := GetMaxPartsForSize(total, maxParts, minSize); total < (n + 1) * minSize || n == maxParts
  {
    var n := GetMaxPartsForSize(total, maxParts, minSize);
    if total > 0 {
      var q := total / minSize;
      assert total < (q + 1) * minSize;
      if n != maxParts {
        assert n >= q;
        assert (n - q) * minSize >= 0;
      }
    }
  }

  // How many parts are aimed at: as many as were asked for, between one and the most allowed
  function PartCount(total: int, requested: int, maxParts: nat, minSize: nat): nat
    requires maxParts > 0 && minSize > 0
  {
    Min(Max(1, requested), GetMaxPartsForSize(total, maxParts, minSize))
  }

  /** That is what was asked for, or the most if that is less. */
  lemma AsManyAsAllowed(total: int, requested: int, maxParts: nat, minSize: nat)
    requires maxParts > 0 && minSize > 0
    ensures var n, most := PartCount(total, requested, maxParts, minSize),
                           GetMaxPartsForSize(total, maxParts, minSize);
            && (1 <= requested <= most ==> n == requested) && (requested > most ==> n == most)
            && (requested < 1 ==> n == 1)
  {
  }

  method BuildParts(total: int, requested: int, maxParts: nat, minSize: nat) returns (parts: seq<Part>)
    requires maxParts > 0 && minSize > 0
    ensures total <= 0 ==> parts == []
    ensures total > 0 ==> Tiles(parts, total) && |parts| <= Max(1, requested) && |parts| <= maxParts
    ensures forall i :: 0 <= i < |parts| ==> parts[i].received == 0 && parts[i].status == Pending && parts[i].lastAuto == 0
    ensures forall i, j :: 0 <= i < |parts| && 0 <= j < |parts| - 1 ==> parts[i].Size() <= parts[j].Size()
    // the part size is the least with which that many parts reach the end
    ensures var n := PartCount(total, requested, maxParts, minSize);
            total > 0 ==> LeastShare(parts[0].Size(), n, total)
  {
    if total <= 0 {
      return [];
    }
    var partCount := PartCount(total, requested, maxParts, minSize);
    if partCount <= 1 {
      return [Part(0, 0, total - 1, 0, Pending, 0)];
    }
    parts := [];
    hide Cut, Tiles, CeilDiv, CutPart, LeastShare;
    var partSize := CeilDiv(total, partCount);
    EnoughParts(total, partCount);
    NothingCut(partSize, total);
    var i, start := 0, 0;
    while i < partCount
      invariant 0 <= i <= partCount && |parts| == i && start == i * partSize
      invariant Cut(parts, partSize, total)
    {
      if start >= total {
        break;
      }
      CutMore(parts, partSize, total);
      NextStart(i, partSize);
      parts := parts + [CutPart(i, start, partSize, total)];
      i := i + 1;
      start := start + partSize;
    }
    CutTiles(parts, partSize, total);
    FirstSize(parts, partCount, total);
  }

  lemma FirstSize(parts: seq<Part>, count: nat, total: nat)
    requires total > 0 && count > 0 && CeilDiv(total, count) > 0 && Cut(parts, CeilDiv(total, count), total)
    requires parts != []
    ensures LeastShare(parts[0].Size(), count, total)
  {
    hide LeastShare, CeilDiv;
    LeastIsCeil(total, count);
    assert parts[0] == CutPart(0, 0, CeilDiv(total, count), total);
  }

  lemma LeastIsCeil(total: nat, count: nat)
    requires total > 0 && count > 0
    ensures LeastShare(CeilDiv(total, count), count, total) && CeilDiv(total, count) <= total
  {
    var size := CeilDiv(total, count);
    var r := (total + count - 1) % count;
    assert total + count - 1 == count * size + r;
    hide CeilDiv;
    assert count * (size - 1) == count * size - count;
    TimesGrows(count, Max(0, size - 1));
  }

  lemma {:induction false} TimesGrows(count: nat, k: nat)
    requires count > 0
    ensures count * k >= k
  {
    if k > 0 {
      TimesGrows(count, k - 1);
      assert count * k == count * (k - 1) + count;
    }
  }

  // The least share with which this many parts reach the end
  ghost predicate LeastShare(size: int, count: nat, total: int) {
    count * size >= total && count * (size - 1) < total
  }

  function CutPart(i: nat, start: nat, size: nat, total: nat): Part
    requires start < total && size > 0
  {
    Part(i, start, Min(start + size - 1, total - 1), 0, Pending, 0)
  }

  // The parts the loop has cut off so far
  ghost predicate Cut(parts: seq<Part>, size: nat, total: nat)
    requires size > 0
  {
    forall j :: 0 <= j < |parts| ==> j * size < total && parts[j] == CutPart(j, j * size, size, total)
  }

  lemma NothingCut(size: nat, total: nat)
    requires size > 0
    ensures Cut([], size, total)
  {
  }

  lemma NextStart(i: nat, size: nat)
    ensures (i + 1) * size == i * size + size
  {
  }

  lemma CutMore(parts: seq<Part>, size: nat, total: nat)
    requires size > 0 && Cut(parts, size, total) && |parts| * size < total
    ensures Cut(parts + [CutPart(|parts|, |parts| * size, size, total)], size, total)
  {
  }

  lemma CutAt(parts: seq<Part>, size: nat, total: nat, j: nat)
    requires size > 0 && Cut(parts, size, total) && j + 1 < |parts|
    ensures parts[j + 1].start == j * size + size == parts[j].end + 1
  {
    assert parts[j + 1].start == (j + 1) * size;
  }

  lemma CutTiles(parts: seq<Part>, size: nat, total: nat)
    requires size > 0 && Cut(parts, size, total) && parts != [] && |parts| * size >= total
    ensures Tiles(parts, total)
    ensures forall i, j :: 0 <= i < |parts| && 0 <= j < |parts| - 1 ==> parts[i].Size() <= parts[j].Size()
    ensures forall i :: 0 <= i < |parts| ==> parts[i].received == 0 && parts[i].status == Pending && parts[i].lastAuto == 0
  {
    forall j | 0 <= j < |parts| - 1
      ensures parts[j + 1].start == parts[j].end + 1 && parts[j].Size() == size
    {
      CutAt(parts, size, total, j);
      assert parts[j].start == j * size;
    }
    var last := |parts| - 1;
    assert parts[last].start == last * size;
    assert |parts| * size == last * size + size;
  }

  lemma EnoughParts(total: nat, count: nat)
    requires total > 0 && count > 0
    ensures var size := CeilDiv(total, count); size > 0 && count * size >= total
  {
    var size := (total + count - 1) / count;
    assert total + count - 1 == count * size + (total + count - 1) % count;
  }

  // ---- the worker: one range of a stored file ----

  const RANGE_CHUNK := 1024 * 1024

  ghost function Concat(chunks: seq<seq<Byte>>): seq<Byte> {
    if chunks == [] then [] else Concat(chunks[..|chunks| - 1]) + chunks[|chunks| - 1]
  }

  lemma NoChunks()
    ensures Concat([]) == []
  {
  }

  lemma ConcatSnoc(chunks: seq<seq<Byte>>, chunk: seq<Byte>)
    ensures Concat(chunks + [chunk]) == Concat(chunks) + chunk
  {
    assert (chunks + [chunk])[..|chunks|] == chunks;
  }

  // The bytes from start to end inclusive that the file has
  ghost function Slice(file: seq<Byte>, start: nat, end: int): seq<Byte> {
    if start <= end && start < |file| then file[start..Min(end + 1, |file|)] else []
  }

  method StreamFileRange(file: seq<Byte>, start: nat, end: int) returns (chunks: seq<seq<Byte>>)
    requires start <= |file|
    ensures Concat(chunks) == Slice(file, start, end)
    ensures forall c :: c in chunks ==> 0 < |c| <= RANGE_CHUNK
  {
    hide Concat;
    chunks := [];
    assert Concat(chunks) == file[start..start] by { NoChunks(); }
    var remaining, position := end - start + 1, start;
    while remaining > 0
      invariant start <= position <= |file| && (position > start ==> position <= end + 1)
      invariant remaining == end + 1 - position
      invariant Concat(chunks) == file[start..position]
      invariant forall c :: c in chunks ==> 0 < |c| <= RANGE_CHUNK
    {
      var chunk := file[position..Min(position + Min(RANGE_CHUNK, remaining), |file|)];
      if chunk == [] {
        break;
      }
      ConcatSnoc(chunks, chunk);
      remaining := remaining - |chunk|;
      position := position + |chunk|;
      chunks := chunks + [chunk];
    }
  }

  datatype RangeReply = PartialContent(first: nat, last: int, length: int, chunks: seq<seq<Byte>>)
                      | BadRequest
                      | NotSatisfiable

  // bytes=<start>-<end?>
  datatype RangeSpec = RangeSpec(start: nat, end: int) | Malformed

  const PREFIX := "bytes="

  // The regular expression ^bytes=(\d+)-(\d+)?$ ; a missing end is size - 1
  function ParseRange(spec: string, size: nat): RangeSpec {
    if |spec| < |PREFIX| || spec[..|PREFIX|] != PREFIX then Malformed
    else
      var dash := DigitRun(spec, |PREFIX|);
      if dash == |PREFIX| || dash == |spec| || spec[dash] != '-' then Malformed
      else if DigitRun(spec, dash + 1) != |spec| then Malformed
      else RangeSpec(Value(spec[|PREFIX|..dash]), if dash + 1 == |spec| then size - 1 else Value(spec[dash + 1..]))
  }

  method RangeResponse(file: seq<Byte>, spec: string) returns (r: RangeReply)
    ensures r.BadRequest? <==> ParseRange(spec, |file|).Malformed?
    ensures r.NotSatisfiable? <==> ParseRange(spec, |file|).RangeSpec? && ParseRange(spec, |file|).start >= |file|
    ensures r.PartialContent? ==>
              var wanted := ParseRange(spec, |file|);
              && r.first == wanted.start && r.last == Min(wanted.end, |file| - 1)
              && Concat(r.chunks) == Slice(file, wanted.start, wanted.end)
              // the announced length is the length sent exactly when the range does not run backwards
              && (r.length == |Concat(r.chunks)| <==> r.first <= r.last + 1)
  {
    var wanted := ParseRange(spec, |file|);
    if wanted.Malformed? {
      return BadRequest;
    }
    var size := |file|;
    if wanted.start >= size {
      return NotSatisfiable;
    }
    var end := Min(wanted.end, size - 1);
    var chunks := StreamFileRange(file, wanted.start, end);
    return PartialContent(wanted.start, end, end - wanted.start + 1, chunks);
  }

  // What the browser asks for
  function RangeQuery(start: nat, end: nat): string {
    PREFIX + Digits(start) + "-" + Digits(end)
  }

  /** A range with a number before the dash, and a number or nothing behind it, is read as those numbers; nothing stands
      for the last byte. Everything else is malformed. */
  lemma RangeReadIff(spec: string, size: nat)
    ensures forall a, b :: AllDigits(a) && a != "" && AllDigits(b) && spec == "bytes=" + a + "-" + b ==>
              ParseRange(spec, size) == RangeSpec(Value(a), if b == "" then size - 1 else Value(b))
    ensures ParseRange(spec, size).RangeSpec? ==>
              exists a, b :: AllDigits(a) && a != "" && AllDigits(b) && spec == "bytes=" + a + "-" + b
  {
    hide ParseRange, Value;
    forall a, b | AllDigits(a) && a != "" && AllDigits(b) && spec == "bytes=" + a + "-" + b
      ensures ParseRange(spec, size) == RangeSpec(Value(a), if b == "" then size - 1 else Value(b))
    {
      RangeRead(a, b, size);
    }
    if ParseRange(spec, size).RangeSpec? {
      var a, b := RangeShape(spec, size);
    }
  }

  lemma RangeShape(spec: string, size: nat) returns (a: string, b: string)
    requires ParseRange(spec, size).RangeSpec?
    ensures AllDigits(a) && a != "" && AllDigits(b) && spec == "bytes=" + a + "-" + b
  {
    hide Value;
    var n := |PREFIX|;
    var dash := DigitRun(spec, n);
    a, b := spec[n..dash], spec[dash + 1..|spec|];
    assert spec[..n] == PREFIX && spec[dash] == '-' && AllDigits(b);
    hide ParseRange, AllDigits;
    assert spec == spec[..n] + spec[n..dash] + [spec[dash]] + spec[dash + 1..|spec|];
  }

  lemma RangeRead(a: string, b: string, size: nat)
    requires AllDigits(a) && a != "" && AllDigits(b)
    ensures ParseRange("bytes=" + a + "-" + b, size) == RangeSpec(Value(a), if b == "" then size - 1 else Value(b))
  {
    var spec, dash := PREFIX + a + "-" + b, |PREFIX| + |a|;
    Pieces(PREFIX, a, b);
    hide Value;
    DigitRunIs(spec, |PREFIX|, dash);
    DigitRunIs(spec, dash + 1, |spec|);
  }

  /** The worker reads exactly the two numbers the browser wrote. */
  lemma RangeQueryRead(start: nat, end: nat, size: nat)
    ensures ParseRange(RangeQuery(start, end), size) == RangeSpec(start, end)
  {
    ValueOfDigits(start);
    ValueOfDigits(end);
    var spec, dash := RangeQuery(start, end), |PREFIX| + |Digits(start)|;
    Pieces(PREFIX, Digits(start), Digits(end));
    hide Digits, Value;
    DigitRunIs(spec, |PREFIX|, dash);
    DigitRunIs(spec, dash + 1, |spec|);
  }

  lemma Pieces(a: string, b: string, c: string)
    ensures var s, i := a + b + "-" + c, |a| + |b|;
            s[..|a|] == a && s[|a|..i] == b && s[i] == '-' && s[i + 1..|s|] == c && s[i + 1..] == c
  {
  }

  ghost function Length(chunks: seq<seq<Byte>>): nat {
    |Concat(chunks)|
  }

  /** Each chunk the browser reads is the slice of the file that starts where the ones before it ended. */
  lemma {:induction false} ChunkIsSlice(chunks: seq<seq<Byte>>, body: seq<Byte>, k: nat)
    requires Concat(chunks) == body && k < |chunks|
    ensures var at := Length(chunks[..k]); at + |chunks[k]| <= |body| && chunks[k] == body[at..at + |chunks[k]|]
    decreases |chunks|
  {
    var n := |chunks| - 1;
    if k < n {
      assert chunks[..n][..k] == chunks[..k];
      ChunkIsSlice(chunks[..n], Concat(chunks[..n]), k);
    }
  }

  /** The two halves meet: whatever stretch of the stored file a part still misses, asking for it delivers
      exactly those bytes, announced as exactly that range. */
  method FetchRange(file: seq<Byte>, start: nat, end: nat) returns (r: RangeReply)
    requires start <= end < |file|
    ensures r.PartialContent? && r.first == start && r.last == end && r.length == end - start + 1
    ensures Concat(r.chunks) == file[start..end + 1]
    ensures forall k :: 0 <= k < |r.chunks| ==>
              var at := start + Length(r.chunks[..k]);
              at + |r.chunks[k]| <= end + 1 && r.chunks[k] == file[at..at + |r.chunks[k]|]
  {
    RangeQueryRead(start, end, |file|);
    hide Concat, ParseRange, RangeQuery;
    r := RangeResponse(file, RangeQuery(start, end));
    var body := file[start..end + 1];
    forall k | 0 <= k < |r.chunks|
      ensures var at := start + Length(r.chunks[..k]);
              at + |r.chunks[k]| <= end + 1 && r.chunks[k] == file[at..at + |r.chunks[k]|]
    {
      ChunkIsSlice(r.chunks, body, k);
      SliceOfSlice(file, start, end + 1, Length(r.chunks[..k]), |r.chunks[k]|);
    }
  }

  lemma SliceOfSlice(file: seq<Byte>, a: nat, b: nat, i: nat, n: nat)
    requires a <= b <= |file| && i + n <= b - a
    ensures file[a..b][i..i + n] == file[a + i..a + i + n]
  {
    var x, y := file[a..b], file[a + i..a + i + n];
    assert forall k :: 0 <= k < n ==> y[k] == x[i + k];
  }
}
