/** Bencode (BEP 3): the encoder and decoder of the browser (next-frontend/app/lib/torrentParser.ts) and the
    decoder of the worker (python-worker/streamlift_worker/torrent_metadata.py). A byte is written as the
    character with its code. */
module Bencode {
  import opened Basics
  import opened Decimal
  import opened KeyedSort

  // A dictionary is the list of its entries in the order they were added.
  datatype Value = Int(n: int) | Bytes(bytes: string) | List(items: seq<Value>) | Dict(entries: seq<Keyed<Value>>)

  // Assigning to this property of a JavaScript object sets its prototype instead of adding an entry.
  const PROTO := "__proto__"

  const MAX_SAFE := 9007199254740991

  predicate Ascii(s: string) {
    forall i :: 0 <= i < |s| ==> s[i] < 128 as char
  }

  // Values both programs represent exactly: safe integers, and dictionaries with distinct ASCII keys
  ghost predicate Legal(v: Value)
    decreases v
  {
    match v
    case Int(n) => -MAX_SAFE <= n <= MAX_SAFE
    case Bytes(_) => true
    case List(items) => forall i :: 0 <= i < |items| ==> Legal(items[i])
    case Dict(entries) =>
      && Distinct(entries)
      && forall i :: 0 <= i < |entries| ==> Ascii(entries[i].key) && Legal(entries[i].item)
  }

  // No dictionary anywhere in it has the property JavaScript swallows.
  ghost predicate NoProto(v: Value)
    decreases v
  {
    match v
    case Int(_) => true
    case Bytes(_) => true
    case List(items) => forall i :: 0 <= i < |items| ==> NoProto(items[i])
    case Dict(entries) =>
      forall i :: 0 <= i < |entries| ==> entries[i].key != PROTO && NoProto(entries[i].item)
  }

  // ---- the encoder ----

  function Show(n: int): string {
    if n < 0 then "-" + Digits(-n) else Digits(n)
  }

  function EncodeBytes(b: string): string {
    Digits(|b|) + ":" + b
  }

  function Join(parts: seq<string>): string {
    if parts == [] then "" else parts[0] + Join(parts[1..])
  }

  function Encode(v: Value): (s: string)
    ensures s != ""
    decreases v, 1
  {
    match v
    case Int(n) => "i" + Show(n) + "e"
    case Bytes(b) => EncodeBytes(b)
    case List(items) => "l" + EncodeItems(items) + "e"
    case Dict(entries) => "d" + JoinItems(Sort(Parts(entries))) + "e"
  }

  function EncodeItems(items: seq<Value>): string
    decreases items, 0
  {
    if items == [] then "" else Encode(items[0]) + EncodeItems(items[1..])
  }

  // Each entry with its key and value encoded
  function Parts(entries: seq<Keyed<Value>>): (r: seq<Keyed<string>>)
    ensures |r| == |entries|
    decreases entries, 0
  {
    if entries == [] then []
    else
      [Keyed(entries[0].key, EncodeBytes(entries[0].key) + Encode(entries[0].item))] + Parts(entries[1..])
  }

  function JoinItems(parts: seq<Keyed<string>>): string {
    if parts == [] then "" else parts[0].item + JoinItems(parts[1..])
  }

  // ---- the decoders ----

  // The first c at or after position i, or the end
  function Find(buf: string, c: char, i: nat): (j: nat)
    requires i <= |buf|
    ensures i <= j <= |buf| && (j < |buf| ==> buf[j] == c) && forall k :: i <= k < j ==> buf[k] != c
    decreases |buf| - i
  {
    if i == |buf| || buf[i] == c then i else Find(buf, c, i + 1)
  }

  function ReadNumber(text: string): Option<int> {
    if text != "" && AllDigits(text) then Some(Decimal.Value(text) as int)
    else if |text| > 1 && text[0] == '-' && AllDigits(text[1..]) then Some(-(Decimal.Value(text[1..]) as int))
    else None
  }

  function DecodeInt(buf: string, pos: nat): (r: Option<(Value, nat)>)
    requires pos < |buf|
    ensures r.Some? ==> pos < r.value.1 <= |buf|
  {
    var end := Find(buf, 'e', pos + 1);
    if end == |buf| then None
    else
      var n := ReadNumber(buf[pos + 1..end]);
      if n.Some? && -MAX_SAFE <= n.value <= MAX_SAFE then Some((Int(n.value), end + 1)) else None
  }

  function DecodeBytes(buf: string, pos: nat): (r: Option<(Value, nat)>)
    requires pos < |buf|
    ensures r.Some? ==> pos < r.value.1 <= |buf| && r.value.0.Bytes?
  {
    var colon := Find(buf, ':', pos);
    if colon == pos || colon == |buf| || !AllDigits(buf[pos..colon]) then None
    else
      var length, start := Decimal.Value(buf[pos..colon]), colon + 1;
      if start + length <= |buf| then Some((Bytes(buf[start..start + length]), start + length)) else None
  }

  // Setting a property: a known key keeps its place. Only a JavaScript object loses PROTO.
  function Put(entries: seq<Keyed<Value>>, key: string, value: Value, browser: bool): seq<Keyed<Value>> {
    if browser && key == PROTO then entries
    else PutAt(entries, key, value)
  }

  function PutAt(entries: seq<Keyed<Value>>, key: string, value: Value): seq<Keyed<Value>> {
    if entries == [] then [Keyed(key, value)]
    else if entries[0].key == key then [Keyed(key, value)] + entries[1..]
    else [entries[0]] + PutAt(entries[1..], key, value)
  }

  // None stands for text that is not the bencode of a legal value: what the programs then do is left out.
  function Decode(buf: string, pos: nat, browser: bool): (r: Option<(Value, nat)>)
    ensures r.Some? ==> pos < r.value.1 <= |buf|
    decreases |buf| - pos, 1
  {
    if pos >= |buf| then None
    else if buf[pos] == 'i' then DecodeInt(buf, pos)
    else if buf[pos] == 'l' then
      match DecodeItems(buf, pos + 1, [], browser)
      case Some((items, end)) => Some((List(items), end))
      case None => None
    else if buf[pos] == 'd' then
      match DecodeEntries(buf, pos + 1, [], browser)
      case Some((entries, end)) => Some((Dict(entries), end))
      case None => None
    else DecodeBytes(buf, pos)
  }

  function DecodeItems(buf: string, pos: nat, items: seq<Value>, browser: bool): (r: Option<(seq<Value>, nat)>)
    ensures r.Some? ==> pos < r.value.1 <= |buf|
    decreases |buf| - pos, 2
  {
    if pos >= |buf| then None
    else if buf[pos] == 'e' then Some((items, pos + 1))
    else
      match Decode(buf, pos, browser)
      case None => None
      case Some((item, end)) => DecodeItems(buf, end, items + [item], browser)
  }

  function DecodeEntries(buf: string, pos: nat, entries: seq<Keyed<Value>>, browser: bool)
    : (r: Option<(seq<Keyed<Value>>, nat)>)
    ensures r.Some? ==> pos < r.value.1 <= |buf|
    decreases |buf| - pos, 2
  {
    if pos >= |buf| then None
    else if buf[pos] == 'e' then Some((entries, pos + 1))
    else
      match Decode(buf, pos, browser)
      case None => None
      case Some((key, mid)) =>
        if !key.Bytes? || !Ascii(key.bytes) then None
        else
          match Decode(buf, mid, browser)
          case None => None
          case Some((value, end)) => DecodeEntries(buf, end, Put(entries, key.bytes, value, browser), browser)
  }

  /** The browser's decoder, with its loops. */
  method DecodeBencode(buf: string, offset: nat) returns (r: Option<(Value, nat)>)
    ensures r == Decode(buf, offset, true)
    decreases |buf| - offset
  {
    if offset >= |buf| {
      return None;
    }
    var byte := buf[offset];
    if byte == 'i' {
      return DecodeInt(buf, offset);
    }
    if byte == 'l' {
      var list: seq<Value> := [];
      var pos := offset + 1;
      while pos < |buf| && buf[pos] != 'e'
        invariant offset < pos <= |buf|
        invariant DecodeItems(buf, pos, list, true) == DecodeItems(buf, offset + 1, [], true)
        decreases |buf| - pos
      {
        var item := DecodeBencode(buf, pos);
        if item.None? {
          return None;
        }
        list := list + [item.value.0];
        pos := item.value.1;
      }
      return if pos < |buf| then Some((List(list), pos + 1)) else None;
    }
    if byte == 'd' {
      var dict: seq<Keyed<Value>> := [];
      var pos := offset + 1;
      while pos < |buf| && buf[pos] != 'e'
        invariant offset < pos <= |buf|
        invariant DecodeEntries(buf, pos, dict, true) == DecodeEntries(buf, offset + 1, [], true)
        decreases |buf| - pos
      {
        var key := DecodeBencode(buf, pos);
        if key.None? || !key.value.0.Bytes? || !Ascii(key.value.0.bytes) {
          return None;
        }
        var value := DecodeBencode(buf, key.value.1);
        if value.None? {
          return None;
        }
        dict := Put(dict, key.value.0.bytes, value.value.0, true);
        pos := value.value.1;
      }
      return if pos < |buf| then Some((Dict(dict), pos + 1)) else None;
    }
    return DecodeBytes(buf, offset);
  }

  /** The worker's decoder: the same grammar, every key kept. */
  method Bdecode(data: string, start: nat) returns (r: Option<(Value, nat)>)
    ensures r == Decode(data, start, false)
    decreases |data| - start
  {
    var pos := start;
    if pos >= |data| {
      return None;
    }
    var kind := data[pos];
    if kind == 'i' {
      return DecodeInt(data, pos);
    }
    if kind == 'd' {
      pos := pos + 1;
      var result: seq<Keyed<Value>> := [];
      while pos < |data| && data[pos] != 'e'
        invariant start < pos <= |data|
        invariant DecodeEntries(data, pos, result, false) == DecodeEntries(data, start + 1, [], false)
        decreases |data| - pos
      {
        var key := Bdecode(data, pos);
        if key.None? || !key.value.0.Bytes? || !Ascii(key.value.0.bytes) {
          return None;
        }
        var value := Bdecode(data, key.value.1);
        if value.None? {
          return None;
        }
        result := Put(result, key.value.0.bytes, value.value.0, false);
        pos := value.value.1;
      }
      return if pos < |data| then Some((Dict(result), pos + 1)) else None;
    }
    if kind == 'l' {
      pos := pos + 1;
      var result: seq<Value> := [];
      while pos < |data| && data[pos] != 'e'
        invariant start < pos <= |data|
        invariant DecodeItems(data, pos, result, false) == DecodeItems(data, start + 1, [], false)
        decreases |data| - pos
      {
        var item := Bdecode(data, pos);
        if item.None? {
          return None;
        }
        result := result + [item.value.0];
        pos := item.value.1;
      }
      return if pos < |data| then Some((List(result), pos + 1)) else None;
    }
    return DecodeBytes(data, pos);
  }

  // ---- canonical values ----

  ghost predicate Canonical(v: Value)
    decreases v
  {
    match v
    case Int(_) => true
    case Bytes(_) => true
    case List(items) => forall i :: 0 <= i < |items| ==> Canonical(items[i])
    case Dict(entries) => Ascending(entries) && forall i :: 0 <= i < |entries| ==> Canonical(entries[i].item)
  }

  // The same value with every dictionary in key order
  ghost function Canon(v: Value): Value
    decreases v, 1
  {
    match v
    case Int(_) => v
    case Bytes(_) => v
    case List(items) => List(CanonItems(items))
    case Dict(entries) => Dict(Sort(CanonEntries(entries)))
  }

  ghost function CanonItems(items: seq<Value>): (r: seq<Value>)
    ensures |r| == |items| && forall i :: 0 <= i < |r| ==> r[i] == Canon(items[i])
    decreases items, 0
  {
    if items == [] then [] else [Canon(items[0])] + CanonItems(items[1..])
  }

  ghost function CanonEntries(entries: seq<Keyed<Value>>): (r: seq<Keyed<Value>>)
    ensures |r| == |entries|
    ensures forall i :: 0 <= i < |r| ==> r[i].key == entries[i].key && r[i].item == Canon(entries[i].item)
    decreases entries, 0
  {
    if entries == [] then [] else [Keyed(entries[0].key, Canon(entries[0].item))] + CanonEntries(entries[1..])
  }

  // What a decoder gives back: all of it, or without the entries the browser swallows
  ghost function Kept(v: Value, browser: bool): Value
    decreases v, 1
  {
    match v
    case Int(_) => v
    case Bytes(_) => v
    case List(items) => List(KeptItems(items, browser))
    case Dict(entries) => Dict(KeptEntries(entries, browser))
  }

  ghost function KeptItems(items: seq<Value>, browser: bool): seq<Value>
    decreases items, 0
  {
    if items == [] then [] else [Kept(items[0], browser)] + KeptItems(items[1..], browser)
  }

  ghost function KeptEntries(entries: seq<Keyed<Value>>, browser: bool): seq<Keyed<Value>>
    decreases entries, 0
  {
    if entries == [] then []
    else if browser && entries[0].key == PROTO then KeptEntries(entries[1..], browser)
    else [Keyed(entries[0].key, Kept(entries[0].item, browser))] + KeptEntries(entries[1..], browser)
  }

  // ---- reading an encoding ----

  ghost predicate At(buf: string, pos: nat, s: string) {
    pos + |s| <= |buf| && buf[pos..pos + |s|] == s
  }

  lemma AtIs(buf: string, pos: nat, s: string)
    requires At(buf, pos, s)
    ensures pos + |s| <= |buf| && buf[pos..pos + |s|] == s
  {
  }

  lemma AtSplit(buf: string, pos: nat, a: string, b: string)
    requires At(buf, pos, a + b)
    ensures At(buf, pos, a) && At(buf, pos + |a|, b)
  {
    var w := buf[pos..pos + |a + b|];
    assert buf[pos..pos + |a|] == w[..|a|];
    assert buf[pos + |a|..pos + |a| + |b|] == w[|a|..];
  }

  lemma AtSplit3(buf: string, pos: nat, a: string, b: string, c: string)
    requires At(buf, pos, a + b + c)
    ensures At(buf, pos, a) && At(buf, pos + |a|, b) && At(buf, pos + |a| + |b|, c)
  {
    AtSplit(buf, pos, a + b, c);
    AtSplit(buf, pos, a, b);
  }

  lemma AtHead(buf: string, pos: nat, s: string)
    requires At(buf, pos, s) && s != ""
    ensures pos < |buf| && buf[pos] == s[0]
  {
    assert buf[pos..pos + |s|][0] == s[0];
  }

  lemma {:induction false} FindIs(buf: string, c: char, i: nat, j: nat)
    requires i <= j < |buf| && buf[j] == c && forall k :: i <= k < j ==> buf[k] != c
    ensures Find(buf, c, i) == j
    decreases j - i
  {
    if i < j {
      FindIs(buf, c, i + 1, j);
    }
  }

  lemma FindAfter(buf: string, c: char, pos: nat, text: string)
    requires At(buf, pos, text) && pos + |text| < |buf| && buf[pos + |text|] == c
    requires forall k :: 0 <= k < |text| ==> text[k] != c
    ensures Find(buf, c, pos) == pos + |text|
  {
    forall k | pos <= k < pos + |text|
      ensures buf[k] != c
    {
      assert buf[pos..pos + |text|][k - pos] == text[k - pos];
    }
    FindIs(buf, c, pos, pos + |text|);
  }

  lemma ReadShown(n: int)
    ensures ReadNumber(Show(n)) == Some(n) && forall k :: 0 <= k < |Show(n)| ==> Show(n)[k] != 'e'
  {
    ValueOfDigits(if n < 0 then -n else n);
    if n < 0 {
      assert Show(n)[1..] == Digits(-n);
    }
  }

  lemma IntAt(n: int, buf: string, pos: nat)
    requires -MAX_SAFE <= n <= MAX_SAFE && At(buf, pos, "i" + Show(n) + "e")
    ensures pos < |buf| && buf[pos] == 'i' && DecodeInt(buf, pos) == Some((Int(n), pos + |Show(n)| + 2))
  {
    hide Show, ReadNumber;
    AtSplit3(buf, pos, "i", Show(n), "e");
    AtHead(buf, pos, "i");
    AtHead(buf, pos + 1 + |Show(n)|, "e");
    ReadShown(n);
    FindAfter(buf, 'e', pos + 1, Show(n));
  }

  lemma BytesAt(b: string, buf: string, pos: nat)
    requires At(buf, pos, EncodeBytes(b))
    ensures pos < |buf| && IsDigit(buf[pos])
    ensures DecodeBytes(buf, pos) == Some((Bytes(b), pos + |EncodeBytes(b)|))
  {
    hide Digits, At;
    AtSplit3(buf, pos, Digits(|b|), ":", b);
    ValueOfDigits(|b|);
    AtIs(buf, pos, Digits(|b|));
    AtIs(buf, pos + |Digits(|b|)| + 1, b);
    AtHead(buf, pos, Digits(|b|));
    AtHead(buf, pos + |Digits(|b|)|, ":");
    FindAfter(buf, ':', pos, Digits(|b|));
  }

  lemma EncodeHead(v: Value)
    ensures Encode(v)[0] != 'e'
  {
    if v.Bytes? {
      ValueOfDigits(|v.bytes|);
    }
  }

  lemma {:induction false} PutNew(entries: seq<Keyed<Value>>, key: string, value: Value)
    requires forall i :: 0 <= i < |entries| ==> entries[i].key != key
    ensures PutAt(entries, key, value) == entries + [Keyed(key, value)]
  {
    if entries != [] {
      PutNew(entries[1..], key, value);
    }
  }

  lemma {:induction false} PartsAre(entries: seq<Keyed<Value>>)
    ensures forall i :: 0 <= i < |entries| ==>
              Parts(entries)[i] == Keyed(entries[i].key, EncodeBytes(entries[i].key) + Encode(entries[i].item))
  {
    if entries != [] {
      PartsAre(entries[1..]);
    }
  }

  lemma PartsInOrder(entries: seq<Keyed<Value>>)
    requires Ascending(entries)
    ensures Sort(Parts(entries)) == Parts(entries)
  {
    PartsAre(entries);
    SortOfAscending(Parts(entries));
  }

  lemma DecodeByHead(buf: string, pos: nat, browser: bool)
    requires pos < |buf|
    ensures buf[pos] == 'i' ==> Decode(buf, pos, browser) == DecodeInt(buf, pos)
    ensures IsDigit(buf[pos]) ==> Decode(buf, pos, browser) == DecodeBytes(buf, pos)
    ensures var r := DecodeItems(buf, pos + 1, [], browser);
            buf[pos] == 'l' && r.Some? ==> Decode(buf, pos, browser) == Some((List(r.value.0), r.value.1))
    ensures var r := DecodeEntries(buf, pos + 1, [], browser);
            buf[pos] == 'd' && r.Some? ==> Decode(buf, pos, browser) == Some((Dict(r.value.0), r.value.1))
  {
    hide DecodeInt, DecodeBytes, DecodeItems, DecodeEntries;
  }

  /** Wherever the encoding of a canonical value stands, both decoders read that value there and stop right
      behind it; only the browser leaves the entries out that it cannot hold. */
  lemma {:induction false} DecodeAt(v: Value, buf: string, pos: nat, browser: bool)
    requires Legal(v) && Canonical(v) && At(buf, pos, Encode(v))
    ensures Decode(buf, pos, browser) == Some((Kept(v, browser), pos + |Encode(v)|))
    decreases v, 1
  {
    hide At, Decode, DecodeInt, DecodeBytes, EncodeItems, KeptItems, KeptEntries, JoinItems, Parts, Show, EncodeBytes,
         DecodeItems, DecodeEntries, Sort;
    match v
    case Int(n) =>
      IntAt(n, buf, pos);
      DecodeByHead(buf, pos, browser);
    case Bytes(b) =>
      BytesAt(b, buf, pos);
      DecodeByHead(buf, pos, browser);
    case List(items) =>
      AtSplit3(buf, pos, "l", EncodeItems(items), "e");
      AtHead(buf, pos, "l");
      ItemsFromStart(items, buf, pos + 1, browser);
      DecodeByHead(buf, pos, browser);
    case Dict(entries) =>
      PartsInOrder(entries);
      AtSplit3(buf, pos, "d", JoinItems(Parts(entries)), "e");
      AtHead(buf, pos, "d");
      EntriesFromStart(entries, buf, pos + 1, browser);
      DecodeByHead(buf, pos, browser);
  }

  lemma {:induction false} ItemsFromStart(items: seq<Value>, buf: string, pos: nat, browser: bool)
    requires forall i :: 0 <= i < |items| ==> Legal(items[i]) && Canonical(items[i])
    requires At(buf, pos, EncodeItems(items)) && At(buf, pos + |EncodeItems(items)|, "e")
    ensures DecodeItems(buf, pos, [], browser) == Some((KeptItems(items, browser), pos + |EncodeItems(items)| + 1))
    decreases items, 1
  {
    hide At, Legal, Canonical, EncodeItems, KeptItems, DecodeItems;
    ItemsAt(items, buf, pos, [], browser);
    assert [] + KeptItems(items, browser) == KeptItems(items, browser);
  }

  lemma {:induction false} EntriesFromStart(entries: seq<Keyed<Value>>, buf: string, pos: nat, browser: bool)
    requires Distinct(entries)
    requires forall i :: 0 <= i < |entries| ==>
               Ascii(entries[i].key) && Legal(entries[i].item) && Canonical(entries[i].item)
    requires At(buf, pos, JoinItems(Parts(entries))) && At(buf, pos + |JoinItems(Parts(entries))|, "e")
    ensures DecodeEntries(buf, pos, [], browser) ==
            Some((KeptEntries(entries, browser), pos + |JoinItems(Parts(entries))| + 1))
    decreases entries, 1
  {
    hide At, Legal, Canonical, JoinItems, KeptEntries, DecodeEntries, Parts, Ascii;
    EntriesAt(entries, buf, pos, [], browser);
    assert [] + KeptEntries(entries, browser) == KeptEntries(entries, browser);
  }

  lemma {:induction false} ItemsAt(items: seq<Value>, buf: string, pos: nat, before: seq<Value>, browser: bool)
    requires forall i :: 0 <= i < |items| ==> Legal(items[i]) && Canonical(items[i])
    requires At(buf, pos, EncodeItems(items)) && At(buf, pos + |EncodeItems(items)|, "e")
    ensures DecodeItems(buf, pos, before, browser) ==
            Some((before + KeptItems(items, browser), pos + |EncodeItems(items)| + 1))
    decreases items, 0
  {
    hide At, Legal, Canonical, Encode, Kept, Decode;
    if items == [] {
      AtHead(buf, pos, "e");
      assert before + KeptItems(items, browser) == before;
    } else {
      var first, rest := Encode(items[0]), EncodeItems(items[1..]);
      var kept := Kept(items[0], browser);
      AtSplit(buf, pos, first, rest);
      AtHead(buf, pos, first);
      EncodeHead(items[0]);
      DecodeAt(items[0], buf, pos, browser);
      ItemsAt(items[1..], buf, pos + |first|, before + [kept], browser);
      assert before + KeptItems(items, browser) == before + [kept] + KeptItems(items[1..], browser);
    }
  }

  lemma AtEntry(k: string, v: Value, rest: string, buf: string, pos: nat)
    requires At(buf, pos, EncodeBytes(k) + Encode(v) + rest)
    ensures At(buf, pos, EncodeBytes(k)) && At(buf, pos + |EncodeBytes(k)|, Encode(v))
    ensures At(buf, pos + |EncodeBytes(k)| + |Encode(v)|, rest)
    ensures pos < |buf| && buf[pos] != 'e' && buf[pos] != 'i' && buf[pos] != 'l' && buf[pos] != 'd'
  {
    hide Encode;
    AtSplit3(buf, pos, EncodeBytes(k), Encode(v), rest);
    BytesAt(k, buf, pos);
  }

  // Adding a new entry moves it from the entries still to come to those already there.
  lemma PutStep(before: seq<Keyed<Value>>, entries: seq<Keyed<Value>>, browser: bool)
    requires entries != [] && Distinct(entries)
    requires forall i, j :: 0 <= i < |before| && 0 <= j < |entries| ==> before[i].key != entries[j].key
    ensures var after := Put(before, entries[0].key, Kept(entries[0].item, browser), browser);
            && after + KeptEntries(entries[1..], browser) == before + KeptEntries(entries, browser)
            && forall i, j :: 0 <= i < |after| && 0 <= j < |entries[1..]| ==> after[i].key != entries[1..][j].key
  {
    hide Kept;
    PutNew(before, entries[0].key, Kept(entries[0].item, browser));
  }

  lemma {:induction false} EntriesAt(entries: seq<Keyed<Value>>, buf: string, pos: nat, before: seq<Keyed<Value>>,
                                     browser: bool)
    requires Distinct(entries)
    requires forall i :: 0 <= i < |entries| ==>
               Ascii(entries[i].key) && Legal(entries[i].item) && Canonical(entries[i].item)
    requires forall i, j :: 0 <= i < |before| && 0 <= j < |entries| ==> before[i].key != entries[j].key
    requires At(buf, pos, JoinItems(Parts(entries))) && At(buf, pos + |JoinItems(Parts(entries))|, "e")
    ensures DecodeEntries(buf, pos, before, browser) ==
            Some((before + KeptEntries(entries, browser), pos + |JoinItems(Parts(entries))| + 1))
    decreases entries, 0
  {
    hide At, Legal, Canonical, Encode, Kept, EncodeBytes, DecodeBytes, DecodeInt, Ascii, PutAt;
    if entries == [] {
      AtHead(buf, pos, "e");
      assert before + KeptEntries(entries, browser) == before;
    } else {
      var k, v := entries[0].key, entries[0].item;
      var rest, kept := JoinItems(Parts(entries[1..])), Kept(v, browser);
      AtEntry(k, v, rest, buf, pos);
      BytesAt(k, buf, pos);
      var mid := pos + |EncodeBytes(k)|;
      assert Decode(buf, pos, browser) == Some((Bytes(k), mid));
      DecodeAt(v, buf, mid, browser);
      hide Decode;
      var after := Put(before, k, kept, browser);
      PutStep(before, entries, browser);
      hide Put;
      EntriesAt(entries[1..], buf, mid + |Encode(v)|, after, browser);
    }
  }

  // ---- dictionaries in key order ----

  lemma {:induction false} CanonLegal(v: Value)
    requires Legal(v)
    ensures Legal(Canon(v)) && Canonical(Canon(v))
    decreases v
  {
    match v
    case Int(_) =>
    case Bytes(_) =>
    case List(items) =>
      forall i | 0 <= i < |items|
        ensures Legal(CanonItems(items)[i]) && Canonical(CanonItems(items)[i])
      {
        CanonLegal(items[i]);
      }
    case Dict(entries) =>
      var ce := CanonEntries(entries);
      forall i | 0 <= i < |ce|
        ensures Legal(ce[i].item) && Canonical(ce[i].item) && Ascii(ce[i].key)
      {
        CanonLegal(entries[i].item);
      }
      SortAscending(ce);
      SortedAre(ce);
      AscendingDistinct(Sort(ce));
  }

  lemma AscendingDistinct<T>(s: seq<Keyed<T>>)
    requires Ascending(s)
    ensures Distinct(s)
  {
    forall i, j | 0 <= i < j < |s|
      ensures s[i].key != s[j].key
    {
      LessTotal(s[i].key, s[j].key);
    }
  }

  lemma SortedAre<T>(s: seq<Keyed<T>>)
    ensures forall i :: 0 <= i < |s| ==> Sort(s)[i] in s
    ensures forall x :: x in s ==> x in Sort(s)
  {
    forall i | 0 <= i < |s|
      ensures Sort(s)[i] in s
    {
      assert Sort(s)[i] in multiset(Sort(s));
    }
    forall x | x in s
      ensures x in Sort(s)
    {
      assert x in multiset(s);
    }
  }

  /** The encoding depends on a dictionary's entries, not on the order they were added in. */
  lemma {:induction false} EncodeCanon(v: Value)
    requires Legal(v)
    ensures Encode(Canon(v)) == Encode(v)
    decreases v, 1
  {
    match v
    case Int(_) =>
    case Bytes(_) =>
    case List(items) => EncodeCanonItems(items);
    case Dict(entries) =>
      EncodeCanonEntries(entries);
      var ce := CanonEntries(entries);
      PartsOfSorted(ce);
      PartsAre(ce);
      SortAscending(Parts(ce));
      SortOfAscending(Sort(Parts(ce)));
  }

  lemma {:induction false} EncodeCanonItems(items: seq<Value>)
    requires forall i :: 0 <= i < |items| ==> Legal(items[i])
    ensures EncodeItems(CanonItems(items)) == EncodeItems(items)
    decreases items, 0
  {
    if items != [] {
      EncodeCanon(items[0]);
      EncodeCanonItems(items[1..]);
    }
  }

  lemma {:induction false} EncodeCanonEntries(entries: seq<Keyed<Value>>)
    requires forall i :: 0 <= i < |entries| ==> Legal(entries[i].item)
    ensures Parts(CanonEntries(entries)) == Parts(entries)
    decreases entries, 0
  {
    if entries != [] {
      EncodeCanon(entries[0].item);
      EncodeCanonEntries(entries[1..]);
    }
  }

  ghost predicate IsPart(e: Keyed<Value>, part: Keyed<string>) {
    part == Keyed(e.key, EncodeBytes(e.key) + Encode(e.item))
  }

  lemma PartsOfSorted(entries: seq<Keyed<Value>>)
    ensures Parts(Sort(entries)) == Sort(Parts(entries))
  {
    hide IsPart;
    PartsParallel(entries);
    SortParallel(entries, Parts(entries), IsPart);
    PartsUnique(Sort(entries), Sort(Parts(entries)));
  }

  lemma PartsParallel(entries: seq<Keyed<Value>>)
    ensures Parallel(entries, Parts(entries), IsPart)
  {
    PartsAre(entries);
  }

  lemma PartsUnique(entries: seq<Keyed<Value>>, parts: seq<Keyed<string>>)
    requires Parallel(entries, parts, IsPart)
    ensures parts == Parts(entries)
  {
    PartsAre(entries);
  }

  // ---- what the browser loses ----

  lemma {:induction false} KeptByWorker(v: Value)
    ensures Kept(v, false) == v
    decreases v, 1
  {
    match v
    case Int(_) =>
    case Bytes(_) =>
    case List(items) => KeptItemsByWorker(items);
    case Dict(entries) => KeptEntriesByWorker(entries);
  }

  lemma {:induction false} KeptItemsByWorker(items: seq<Value>)
    ensures KeptItems(items, false) == items
    decreases items, 0
  {
    if items != [] {
      KeptByWorker(items[0]);
      KeptItemsByWorker(items[1..]);
    }
  }

  lemma {:induction false} KeptEntriesByWorker(entries: seq<Keyed<Value>>)
    ensures KeptEntries(entries, false) == entries
    decreases entries, 0
  {
    if entries != [] {
      KeptByWorker(entries[0].item);
      KeptEntriesByWorker(entries[1..]);
    }
  }

  lemma {:induction false} KeptByBrowser(v: Value)
    ensures Kept(v, true) == v <==> NoProto(v)
    decreases v, 1
  {
    match v
    case Int(_) =>
    case Bytes(_) =>
    case List(items) => KeptItemsByBrowser(items);
    case Dict(entries) => KeptEntriesByBrowser(entries);
  }

  lemma {:induction false} KeptItemsByBrowser(items: seq<Value>)
    ensures KeptItems(items, true) == items <==> forall i :: 0 <= i < |items| ==> NoProto(items[i])
    decreases items, 0
  {
    if items != [] {
      var head, tail := items[0], items[1..];
      KeptByBrowser(head);
      KeptItemsByBrowser(tail);
      assert items == [head] + tail;
      assert KeptItems(items, true) == items <==> Kept(head, true) == head && KeptItems(tail, true) == tail;
    }
  }

  lemma {:induction false} KeptEntriesByBrowser(entries: seq<Keyed<Value>>)
    ensures |KeptEntries(entries, true)| <= |entries|
    ensures KeptEntries(entries, true) == entries <==>
              forall i :: 0 <= i < |entries| ==> entries[i].key != PROTO && NoProto(entries[i].item)
    decreases entries, 0
  {
    if entries != [] {
      var head, tail := entries[0], entries[1..];
      KeptByBrowser(head.item);
      KeptEntriesByBrowser(tail);
      assert entries == [head] + tail;
      if head.key != PROTO {
        assert KeptEntries(entries, true) == entries <==>
               Kept(head.item, true) == head.item && KeptEntries(tail, true) == tail;
      }
    }
  }

  lemma {:induction false} NoProtoCanon(v: Value)
    ensures NoProto(Canon(v)) <==> NoProto(v)
    decreases v
  {
    match v
    case Int(_) =>
    case Bytes(_) =>
    case List(items) =>
      forall i | 0 <= i < |items|
        ensures NoProto(CanonItems(items)[i]) <==> NoProto(items[i])
      {
        NoProtoCanon(items[i]);
      }
    case Dict(entries) =>
      forall i | 0 <= i < |entries|
        ensures NoProto(CanonEntries(entries)[i].item) <==> NoProto(entries[i].item)
      {
        NoProtoCanon(entries[i].item);
      }
      NoProtoSameKeys(entries, CanonEntries(entries));
      NoProtoSorted(CanonEntries(entries));
  }

  // Said of the members, so that it does not matter where in the list they stand
  ghost predicate Harmless(e: Keyed<Value>) {
    e.key != PROTO && NoProto(e.item)
  }

  lemma NoProtoMembers(entries: seq<Keyed<Value>>)
    ensures NoProto(Dict(entries)) <==> forall e :: e in entries ==> Harmless(e)
  {
    if forall e :: e in entries ==> Harmless(e) {
      forall i | 0 <= i < |entries|
        ensures entries[i].key != PROTO && NoProto(entries[i].item)
      {
        assert Harmless(entries[i]);
      }
    }
  }

  lemma NoProtoSameKeys(entries: seq<Keyed<Value>>, others: seq<Keyed<Value>>)
    requires |others| == |entries|
    requires forall i :: 0 <= i < |entries| ==>
               others[i].key == entries[i].key && (NoProto(others[i].item) <==> NoProto(entries[i].item))
    ensures NoProto(Dict(others)) <==> NoProto(Dict(entries))
  {
  }

  lemma NoProtoSorted(entries: seq<Keyed<Value>>)
    ensures NoProto(Dict(Sort(entries))) <==> NoProto(Dict(entries))
  {
    hide NoProto, Harmless, Sort;
    NoProtoMembers(entries);
    NoProtoMembers(Sort(entries));
    SortedAre(entries);
    forall e | e in Sort(entries)
      ensures e in entries
    {
      var i :| 0 <= i < |Sort(entries)| && Sort(entries)[i] == e;
    }
  }

  // ---- the round trips ----

  lemma AtStart(s: string, rest: string)
    ensures At(s + rest, 0, s)
  {
  }

  /** Encoding and decoding undo each other on every legal value, whatever follows it: the worker always gets
      the value back, the browser exactly when no dictionary in it has the key __proto__. */
  lemma RoundTrip(v: Value, rest: string)
    requires Legal(v)
    ensures Decode(Encode(v) + rest, 0, false) == Some((Canon(v), |Encode(v)|))
    ensures Decode(Encode(v) + rest, 0, true) == Some((Canon(v), |Encode(v)|)) <==> NoProto(v)
  {
    hide Canon, Legal, Canonical, Encode, Decode, Kept, NoProto;
    CanonLegal(v);
    EncodeCanon(v);
    AtStart(Encode(v), rest);
    DecodeAt(Canon(v), Encode(v) + rest, 0, false);
    DecodeAt(Canon(v), Encode(v) + rest, 0, true);
    KeptByWorker(Canon(v));
    KeptByBrowser(Canon(v));
    NoProtoCanon(v);
  }

  /** Browser and worker read every encoding to the same end, and as the same value exactly when the browser
      can hold all of it. */
  lemma DecodersAgree(v: Value, buf: string, pos: nat)
    requires Legal(v) && At(buf, pos, Encode(v))
    ensures Decode(buf, pos, true) == Decode(buf, pos, false) <==> NoProto(v)
    ensures Decode(buf, pos, true) == Some((Kept(Canon(v), true), pos + |Encode(v)|))
    ensures Decode(buf, pos, false) == Some((Canon(v), pos + |Encode(v)|))
  {
    hide Canon, Legal, Canonical, Encode, Decode, Kept, NoProto, At;
    CanonLegal(v);
    EncodeCanon(v);
    DecodeAt(Canon(v), buf, pos, false);
    DecodeAt(Canon(v), buf, pos, true);
    KeptByWorker(Canon(v));
    KeptByBrowser(Canon(v));
    NoProtoCanon(v);
  }

  /** No encoding is the beginning of another one. */
  lemma PrefixFree(v: Value, w: Value, x: string, y: string)
    requires Legal(v) && Legal(w) && Encode(v) + x == Encode(w) + y
    ensures Canon(v) == Canon(w) && Encode(v) == Encode(w) && x == y
  {
    hide Canon, Legal, Encode, Decode, NoProto;
    RoundTrip(v, x);
    RoundTrip(w, y);
    EncodeCanon(v);
    EncodeCanon(w);
    assert x == (Encode(v) + x)[|Encode(v)|..] && y == (Encode(w) + y)[|Encode(w)|..];
  }

  // ---- the info hash ----

  lemma {:induction false} KeptLegal(v: Value, browser: bool)
    requires Legal(v) && Canonical(v)
    ensures Legal(Kept(v, browser)) && Canonical(Kept(v, browser))
    decreases v, 1
  {
    match v
    case Int(_) =>
    case Bytes(_) =>
    case List(items) => KeptItemsLegal(items, browser);
    case Dict(entries) =>
      KeptEntriesLegal(entries, browser);
      AscendingDistinct(KeptEntries(entries, browser));
  }

  lemma {:induction false} KeptItemsLegal(items: seq<Value>, browser: bool)
    requires forall i :: 0 <= i < |items| ==> Legal(items[i]) && Canonical(items[i])
    ensures Legal(List(KeptItems(items, browser))) && Canonical(List(KeptItems(items, browser)))
    decreases items, 0
  {
    if items != [] {
      KeptLegal(items[0], browser);
      KeptItemsLegal(items[1..], browser);
    }
  }

  lemma {:induction false} KeptEntriesLegal(entries: seq<Keyed<Value>>, browser: bool)
    requires Ascending(entries)
    requires forall i :: 0 <= i < |entries| ==>
               Ascii(entries[i].key) && Legal(entries[i].item) && Canonical(entries[i].item)
    ensures var kept := KeptEntries(entries, browser);
            && Ascending(kept)
            && forall i :: 0 <= i < |kept| ==>
                 && Ascii(kept[i].key) && Legal(kept[i].item) && Canonical(kept[i].item)
                 && exists j :: 0 <= j < |entries| && entries[j].key == kept[i].key
    decreases entries, 0
  {
    if entries != [] {
      KeptLegal(entries[0].item, browser);
      KeptEntriesLegal(entries[1..], browser);
    }
  }

  /** The hash is taken over the re-encoded info dictionary. That is the very slice of the file the dictionary
      was read from exactly when the slice has no key the browser drops. */
  lemma InfoSliceRebuilt(info: Value, buf: string, pos: nat)
    requires Legal(info) && At(buf, pos, Encode(info))
    ensures var r := Decode(buf, pos, true);
            r.Some? && (Encode(r.value.0) == buf[pos..r.value.1] <==> NoProto(info))
  {
    hide Canon, Legal, Canonical, Encode, Decode, Kept, NoProto;
    var c := Canon(info);
    CanonLegal(info);
    EncodeCanon(info);
    DecodeAt(c, buf, pos, true);
    KeptByBrowser(c);
    NoProtoCanon(info);
    var kept := Kept(c, true);
    if Encode(kept) == Encode(c) {
      KeptLegal(c, true);
      PrefixFree(kept, c, "", "");
      CanonOfCanonical(kept);
      CanonOfCanonical(c);
    }
  }

  lemma {:induction false} CanonOfCanonical(v: Value)
    requires Canonical(v)
    ensures Canon(v) == v
    decreases v
  {
    match v
    case Int(_) =>
    case Bytes(_) =>
    case List(items) =>
      forall i | 0 <= i < |items|
        ensures CanonItems(items)[i] == items[i]
      {
        CanonOfCanonical(items[i]);
      }
      assert CanonItems(items) == items;
    case Dict(entries) =>
      var ce := CanonEntries(entries);
      forall i | 0 <= i < |entries|
        ensures ce[i] == entries[i]
      {
        CanonOfCanonical(entries[i].item);
      }
      assert ce == entries;
      SortOfAscending(entries);
  }

  // ---- the encoder's buffers ----

  function Total(parts: seq<string>): nat {
    if parts == [] then 0 else |parts[0]| + Total(parts[1..])
  }

  lemma {:induction false} JoinLength(parts: seq<string>)
    ensures |Join(parts)| == Total(parts)
  {
    if parts != [] {
      JoinLength(parts[1..]);
    }
  }

  lemma {:induction false} JoinSnoc(parts: seq<string>, i: nat)
    requires i < |parts|
    ensures Join(parts[..i + 1]) == Join(parts[..i]) + parts[i]
    ensures |Join(parts[..i + 1])| <= |Join(parts)|
    decreases i
  {
    if i == 0 {
      assert parts[..1] == [parts[0]];
      assert Join([parts[0]]) == parts[0] + Join([]);
    } else {
      JoinSnoc(parts[1..], i - 1);
      assert parts[..i + 1] == [parts[0]] + parts[1..][..i];
      assert parts[..i] == [parts[0]] + parts[1..][..i - 1];
    }
  }

  method CopyTo(out: array<char>, pos: nat, part: string)
    requires pos + |part| <= out.Length
    modifies out
    ensures out[..pos + |part|] == old(out[..pos]) + part
  {
    for i := 0 to |part|
      invariant out[..pos + i] == old(out[..pos]) + part[..i]
    {
      out[pos + i] := part[i];
    }
  }

  // A list or dictionary: the opening letter, the parts one after the other, and the closing e
  method Frame(open: char, parts: seq<string>) returns (r: string)
    ensures r == [open] + Join(parts) + "e"
  {
    JoinLength(parts);
    var out := new char[Total(parts) + 2];
    out[0] := open;
    var pos := 1;
    assert parts[..0] == [];
    for i := 0 to |parts|
      invariant pos == 1 + |Join(parts[..i])| <= out.Length - 1
      invariant out[..pos] == [open] + Join(parts[..i])
    {
      JoinSnoc(parts, i);
      CopyTo(out, pos, parts[i]);
      pos := pos + |parts[i]|;
    }
    assert parts[..|parts|] == parts;
    out[pos] := 'e';
    return out[..];
  }

  /** The encoder as it runs, filling buffers, produces the encoding. */
  method EncodeBencode(v: Value) returns (r: string)
    ensures r == Encode(v)
    decreases v, 1
  {
    match v
    case Bytes(b) => return Digits(|b|) + ":" + b;
    case Int(n) => return "i" + Show(n) + "e";
    case List(items) => r := EncodeList(items);
    case Dict(entries) => r := EncodeDict(entries);
  }

  method EncodeList(items: seq<Value>) returns (r: string)
    ensures r == "l" + EncodeItems(items) + "e"
    decreases items, 2
  {
    hide Encode;
    var parts: seq<string> := [];
    for i := 0 to |items|
      invariant |parts| == i
      invariant forall j :: 0 <= j < i ==> parts[j] == Encode(items[j])
    {
      var part := EncodeBencode(items[i]);
      parts := parts + [part];
    }
    ItemsJoined(items, parts);
    r := Frame('l', parts);
  }

  method EncodeDict(entries: seq<Keyed<Value>>) returns (r: string)
    ensures r == "d" + JoinItems(Sort(Parts(entries))) + "e"
    decreases entries, 2
  {
    hide Encode, EncodeBytes, Sort, Parts, JoinItems;
    var keys := Sort(entries);
    SortedAre(entries);
    var parts: seq<string> := [];
    for i := 0 to |keys|
      invariant |parts| == i
      invariant forall j :: 0 <= j < i ==> parts[j] == EncodeBytes(keys[j].key) + Encode(keys[j].item)
    {
      assert keys[i] in entries;
      var part := EncodeBencode(keys[i].item);
      parts := parts + [EncodeBytes(keys[i].key) + part];
    }
    EntriesJoined(keys, parts);
    PartsOfSorted(entries);
    r := Frame('d', parts);
  }

  lemma {:induction false} ItemsJoined(items: seq<Value>, parts: seq<string>)
    requires |parts| == |items| && forall j :: 0 <= j < |items| ==> parts[j] == Encode(items[j])
    ensures Join(parts) == EncodeItems(items)
  {
    if items != [] {
      ItemsJoined(items[1..], parts[1..]);
    }
  }

  lemma {:induction false} EntriesJoined(entries: seq<Keyed<Value>>, parts: seq<string>)
    requires |parts| == |entries|
    requires forall j :: 0 <= j < |entries| ==> parts[j] == EncodeBytes(entries[j].key) + Encode(entries[j].item)
    ensures Join(parts) == JoinItems(Parts(entries))
  {
    if entries != [] {
      EntriesJoined(entries[1..], parts[1..]);
    }
  }
}
