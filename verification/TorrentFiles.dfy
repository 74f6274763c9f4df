/** The file list of a torrent, as the browser shows it (next-frontend/app/lib/torrentParser.ts, parseTorrentFile) and
    as the worker lays it out (python-worker/streamlift_worker/torrent_metadata.py, _parse_torrent_meta), both from
    the bytes of one .torrent. Text is kept as the bytes it is read from. */
module TorrentFiles {
  import opened Basics
  import opened KeyedSort
  import opened Bencode
  import Decimal

  // size is whatever stands under length; nothing if the key is missing
  datatype BrowserFile = BrowserFile(index: nat, name: string, path: string, size: Option<Value>)

  // infoBytes is what the info-hash is taken of; the total is a number only if every size is one
  datatype ParsedTorrent =
    ParsedTorrent(name: string, infoBytes: string, files: seq<BrowserFile>, totalSize: Option<int>)

  datatype WorkerFile = WorkerFile(index: nat, rel: string, size: int, offset: int)

  // A byte order mark in UTF-8, which the browser's TextDecoder drops
  const MARK := "\U{EF}\U{BB}\U{BF}"

  function Text(bytes: string, browser: bool): string {
    if browser && MARK <= bytes then bytes[|MARK|..] else bytes
  }

  function Lookup(entries: seq<Keyed<Value>>, key: string): Option<Value> {
    if entries == [] then None else if entries[0].key == key then Some(entries[0].item) else Lookup(entries[1..], key)
  }

  predicate AllBytes(items: seq<Value>) {
    forall i :: 0 <= i < |items| ==> items[i].Bytes?
  }

  function Texts(items: seq<Value>, browser: bool): (r: seq<string>)
    requires AllBytes(items)
    ensures |r| == |items| && forall i :: 0 <= i < |r| ==> r[i] == Text(items[i].bytes, browser)
  {
    if items == [] then [] else [Text(items[0].bytes, browser)] + Texts(items[1..], browser)
  }

  function JoinPath(parts: seq<string>): string {
    if parts == [] then "" else if |parts| == 1 then parts[0] else parts[0] + "/" + JoinPath(parts[1..])
  }

  // ---- the browser ----

  // Reading a property: byte arrays and lists have a length of their own.
  function Field(v: Value, key: string): Option<Value> {
    match v
    case Int(_) => None
    case Bytes(b) => if key == "length" then Some(Int(|b|)) else None
    case List(items) => if key == "length" then Some(Int(|items|)) else None
    case Dict(entries) => Lookup(entries, key)
  }

  // Every tier of trackers must be iterable.
  predicate AnnounceReadable(torrent: Value) {
    match Field(torrent, "announce-list")
    case Some(List(tiers)) => forall i :: 0 <= i < |tiers| ==> tiers[i].List? || tiers[i].Bytes?
    case _ => true
  }

  // The parts of a file's path; the file type is read from the last one, so there must be one.
  function BrowserPath(f: Value): (r: Option<seq<string>>)
    ensures r.Some? ==> r.value != []
  {
    match Field(f, "path")
    case Some(List(parts)) => if AllBytes(parts) && parts != [] then Some(Texts(parts, true)) else None
    case _ => None
  }

  function BrowserEntry(f: Value, i: nat, name: string): BrowserFile
    requires BrowserPath(f).Some?
  {
    var parts := BrowserPath(f).value;
    BrowserFile(i, parts[|parts| - 1], JoinPath([name] + parts), Field(f, "length"))
  }

  predicate PathsReadable(items: seq<Value>) {
    forall i :: 0 <= i < |items| ==> BrowserPath(items[i]).Some?
  }

  function BrowserName(info: Value): string {
    match Field(info, "name")
    case Some(Bytes(b)) => Text(b, true)
    case _ => "unknown"
  }

  function BrowserFiles(info: Value): Option<seq<BrowserFile>> {
    var name := BrowserName(info);
    match Field(info, "files")
    case Some(List(items)) =>
      if PathsReadable(items) then
        Some(seq(|items|, i requires 0 <= i < |items| && PathsReadable(items) => BrowserEntry(items[i], i, name)))
      else
        None
    case _ => Some([BrowserFile(0, name, name, Field(info, "length"))])
  }

  function TotalSize(files: seq<BrowserFile>): Option<int> {
    if files == [] then Some(0)
    else
      var n := |files| - 1;
      match (TotalSize(files[..n]), files[n].size)
      case (Some(total), Some(Int(size))) => Some(total + size)
      case _ => None
  }

  // None: the parser throws.
  function BrowserListing(torrent: Value): Option<ParsedTorrent> {
    match Field(torrent, "info")
    case None => None
    case Some(info) =>
      match BrowserFiles(info)
      case Some(files) =>
        if AnnounceReadable(torrent) then
          Some(ParsedTorrent(BrowserName(info), Encode(info), files, TotalSize(files)))
        else
          None
      case None => None
  }

  function BrowserParse(buf: string): Option<ParsedTorrent> {
    match Decode(buf, 0, true)
    case Some((torrent, _)) => BrowserListing(torrent)
    case None => None
  }

  method ListTiers(torrent: Value) returns (ok: bool)
    ensures ok == AnnounceReadable(torrent)
  {
    var announce := Field(torrent, "announce-list");
    if announce.None? || !announce.value.List? {
      return true;
    }
    var tiers := announce.value.items;
    for i := 0 to |tiers|
      invariant forall j :: 0 <= j < i ==> tiers[j].List? || tiers[j].Bytes?
    {
      if !tiers[i].List? && !tiers[i].Bytes? {
        return false;
      }
    }
    return true;
  }

  method ListFiles(info: Value, name: string) returns (r: Option<seq<BrowserFile>>)
    requires name == BrowserName(info)
    ensures r == BrowserFiles(info)
  {
    var listed := Field(info, "files");
    if listed.None? || !listed.value.List? {
      return Some([BrowserFile(0, name, name, Field(info, "length"))]);
    }
    var items := listed.value.items;
    var files: seq<BrowserFile> := [];
    var idx := 0;
    hide BrowserPath, BrowserEntry, BrowserFiles, Field, BrowserName;
    while idx < |items|
      invariant 0 <= idx == |files| <= |items|
      invariant Shown(files, items, name)
    {
      if BrowserPath(items[idx]).None? {
        PathMissing(info, items, idx);
        return None;
      }
      files := files + [BrowserEntry(items[idx], idx, name)];
      idx := idx + 1;
    }
    ShownIs(info, items, files);
    return Some(files);
  }

  lemma PathMissing(info: Value, items: seq<Value>, i: nat)
    requires Field(info, "files") == Some(List(items)) && i < |items| && BrowserPath(items[i]).None?
    ensures BrowserFiles(info) == None
  {
    hide BrowserPath, Field, BrowserName, BrowserEntry;
    assert !PathsReadable(items);
  }

  ghost predicate Shown(files: seq<BrowserFile>, items: seq<Value>, name: string) {
    && |files| <= |items|
    && forall j :: 0 <= j < |files| ==> BrowserPath(items[j]).Some? && files[j] == BrowserEntry(items[j], j, name)
  }

  lemma ShownIs(info: Value, items: seq<Value>, files: seq<BrowserFile>)
    requires Field(info, "files") == Some(List(items))
    requires Shown(files, items, BrowserName(info)) && |files| == |items|
    ensures BrowserFiles(info) == Some(files)
  {
    hide BrowserPath, BrowserName, Field, BrowserEntry;
    assert PathsReadable(items);
    assert BrowserFiles(info).value == files;
  }

  method SumSizes(files: seq<BrowserFile>) returns (total: Option<int>)
    ensures total == TotalSize(files)
  {
    total := Some(0);
    for i := 0 to |files|
      invariant total == TotalSize(files[..i])
    {
      assert files[..i + 1][..i] == files[..i];
      total := if total.Some? && files[i].size.Some? && files[i].size.value.Int?
               then Some(total.value + files[i].size.value.n) else None;
    }
    assert files[..|files|] == files;
  }

  /** The browser's parser, from the bytes of the file to the list it shows. */
  method ParseTorrentFile(buf: string) returns (r: Option<ParsedTorrent>)
    ensures r == BrowserParse(buf)
  {
    var decoded := DecodeBencode(buf, 0);
    if decoded.None? {
      return None;
    }
    var torrent := decoded.value.0;
    var info := Field(torrent, "info");
    if info.None? {
      return None;
    }
    var infoEncoded := EncodeBencode(info.value);
    var name := BrowserName(info.value);
    var readable := ListTiers(torrent);
    var files := ListFiles(info.value, name);
    if !readable || files.None? {
      return None;
    }
    var total := SumSizes(files.value);
    return Some(ParsedTorrent(name, infoEncoded, files.value, total));
  }

  // ---- the worker ----

  // Looking up a key; only dictionaries have keys.
  function Entry(v: Value, key: string): Option<Value> {
    if v.Dict? then Lookup(v.entries, key) else None
  }

  // A number under a key, or 0 without the key; None if there is something else
  function IntAt0(v: Value, key: string): Option<int> {
    match Entry(v, key)
    case None => Some(0)
    case Some(Int(n)) => Some(n)
    case _ => None
  }

  // What a loop over the value visits; a non-empty string or dictionary of files holds no file entry.
  function FileItems(v: Value): Option<seq<Value>> {
    match v
    case List(items) => Some(items)
    case Bytes(b) => if b == "" then Some([]) else None
    case Dict(entries) => if entries == [] then Some([]) else None
    case Int(_) => None
  }

  function Keys(entries: seq<Keyed<Value>>): seq<string> {
    if entries == [] then [] else [entries[0].key] + Keys(entries[1..])
  }

  // A loop over a dictionary visits its keys.
  function WorkerPath(f: Value): Option<seq<string>> {
    match Entry(f, "path")
    case Some(List(parts)) => if AllBytes(parts) then Some(Texts(parts, false)) else None
    case Some(Bytes(b)) => if b == "" then Some([]) else None
    case Some(Dict(entries)) => Some(Keys(entries))
    case _ => None
  }

  predicate ItemReadable(f: Value) {
    f.Dict? && WorkerPath(f).Some? && IntAt0(f, "length").Some?
  }

  predicate ItemsReadable(items: seq<Value>) {
    forall i :: 0 <= i < |items| ==> ItemReadable(items[i])
  }

  function SizeOf(f: Value): int {
    match IntAt0(f, "length")
    case Some(size) => size
    case None => 0
  }

  function Sizes(items: seq<Value>): int {
    if items == [] then 0 else Sizes(items[..|items| - 1]) + SizeOf(items[|items| - 1])
  }

  function WorkerEntry(f: Value, i: nat, offset: int): WorkerFile
    requires ItemReadable(f)
  {
    var parts := WorkerPath(f).value;
    WorkerFile(i, if parts != [] then JoinPath(parts) else "file", SizeOf(f), offset)
  }

  function WorkerFiles(info: Value): Option<seq<WorkerFile>> {
    match Entry(info, "files")
    case Some(listed) =>
      (match FileItems(listed)
       case Some(items) =>
         if ItemsReadable(items) then
           Some(seq(|items|, i requires 0 <= i < |items| && ItemsReadable(items) =>
             WorkerEntry(items[i], i, Sizes(items[..i]))))
         else
           None
       case None => None)
    case None =>
      match (Entry(info, "name"), IntAt0(info, "length"))
      case (Some(Bytes(name)), Some(size)) => Some([WorkerFile(0, Text(name, false), size, 0)])
      case (None, Some(size)) => Some([WorkerFile(0, "download", size, 0)])
      case _ => None
  }

  // None: the parser raises.
  function WorkerListing(meta: Value): Option<(int, seq<WorkerFile>)> {
    match Entry(meta, "info")
    case Some(info) =>
      if info.Dict? then
        match (IntAt0(info, "piece length"), WorkerFiles(info))
        case (Some(pieceLength), Some(files)) => Some((pieceLength, files))
        case _ => None
      else
        None
    case None => None
  }

  function WorkerParse(raw: string): Option<(int, seq<WorkerFile>)> {
    match Decode(raw, 0, false)
    case Some((meta, _)) => WorkerListing(meta)
    case None => None
  }

  // File i starts where the ones before it end.
  ghost predicate LaidOut(files: seq<WorkerFile>, items: seq<Value>) {
    && |files| == |items|
    && forall j :: 0 <= j < |files| ==>
         ItemReadable(items[j]) && files[j] == WorkerEntry(items[j], j, Sizes(items[..j]))
  }

  method LayOut(items: seq<Value>) returns (r: Option<seq<WorkerFile>>)
    ensures r.Some? <==> ItemsReadable(items)
    ensures r.Some? ==> LaidOut(r.value, items)
  {
    var files: seq<WorkerFile> := [];
    var offset := 0;
    hide ItemReadable, WorkerPath, IntAt0;
    for i := 0 to |items|
      invariant LaidOut(files, items[..i]) && offset == Sizes(items[..i])
    {
      ReadableNext(items, i);
      if !ItemReadable(items[i]) {
        return None;
      }
      LaidOutNext(files, items, i);
      files := files + [WorkerEntry(items[i], |files|, offset)];
      assert items[..i + 1][..i] == items[..i];
      offset := offset + SizeOf(items[i]);
    }
    assert items[..|items|] == items;
    return Some(files);
  }

  lemma ReadableNext(items: seq<Value>, i: nat)
    requires i < |items|
    ensures ItemsReadable(items) ==> ItemReadable(items[i])
  {
  }

  lemma LaidOutNext(files: seq<WorkerFile>, items: seq<Value>, i: nat)
    requires i < |items| && LaidOut(files, items[..i]) && ItemReadable(items[i])
    ensures LaidOut(files + [WorkerEntry(items[i], i, Sizes(items[..i]))], items[..i + 1])
  {
    hide ItemReadable, WorkerEntry, Sizes;
    forall j | 0 <= j <= i
      ensures items[..i + 1][..j] == items[..j] && (j < i ==> items[..i][..j] == items[..j])
    {
    }
  }

  /** The worker's parser, from the bytes of the file to where each file lies in the payload. */
  method ParseTorrentMeta(raw: string) returns (r: Option<(int, seq<WorkerFile>)>)
    ensures r == WorkerParse(raw)
  {
    var decoded := Bdecode(raw, 0);
    if decoded.None? {
      return None;
    }
    var found := Entry(decoded.value.0, "info");
    if found.None? || !found.value.Dict? {
      return None;
    }
    var info := found.value;
    var pieceLength := IntAt0(info, "piece length");
    if pieceLength.None? {
      return None;
    }
    var listed := Entry(info, "files");
    if listed.Some? {
      var items := FileItems(listed.value);
      if items.None? {
        return None;
      }
      var files := LayOut(items.value);
      if files.None? {
        return None;
      }
      assert files.value == WorkerFiles(info).value;
      return Some((pieceLength.value, files.value));
    }
    var name, size := Entry(info, "name"), IntAt0(info, "length");
    if size.None? || (name.Some? && !name.value.Bytes?) {
      return None;
    }
    var rel := if name.Some? then Text(name.value.bytes, false) else "download";
    return Some((pieceLength.value, [WorkerFile(0, rel, size.value, 0)]));
  }

  // ---- what the browser's decoder leaves out is not read ----

  ghost function KeptOf(v: Option<Value>): Option<Value> {
    if v.Some? then Some(Kept(v.value, true)) else None
  }

  lemma {:induction false} KeptLookup(entries: seq<Keyed<Value>>, key: string)
    requires key != PROTO
    ensures Lookup(KeptEntries(entries, true), key) == KeptOf(Lookup(entries, key))
  {
    if entries != [] {
      KeptLookup(entries[1..], key);
      if entries[0].key != PROTO {
        var e := Keyed(entries[0].key, Kept(entries[0].item, true));
        assert ([e] + KeptEntries(entries[1..], true))[1..] == KeptEntries(entries[1..], true);
      }
    }
  }

  lemma {:induction false} KeptItemsAre(items: seq<Value>)
    ensures |KeptItems(items, true)| == |items|
    ensures forall i :: 0 <= i < |items| ==> KeptItems(items, true)[i] == Kept(items[i], true)
  {
    if items != [] {
      KeptItemsAre(items[1..]);
    }
  }

  lemma FieldKept(v: Value, key: string)
    requires key != PROTO
    ensures Field(Kept(v, true), key) == KeptOf(Field(v, key))
  {
    if v.Dict? {
      KeptLookup(v.entries, key);
    } else if v.List? {
      KeptItemsAre(v.items);
    }
  }

  lemma {:induction false} TextsKept(items: seq<Value>)
    ensures AllBytes(KeptItems(items, true)) <==> AllBytes(items)
    ensures AllBytes(items) ==> Texts(KeptItems(items, true), true) == Texts(items, true)
  {
    KeptItemsAre(items);
    if AllBytes(items) {
      assert KeptItems(items, true) == items;
    } else {
      var i :| 0 <= i < |items| && !items[i].Bytes?;
      assert !KeptItems(items, true)[i].Bytes?;
    }
  }

  lemma BrowserPathKept(f: Value)
    ensures BrowserPath(Kept(f, true)) == BrowserPath(f)
  {
    FieldKept(f, "path");
    match Field(f, "path")
    case Some(List(parts)) =>
      TextsKept(parts);
      KeptItemsAre(parts);
    case Some(Bytes(_)) =>
    case Some(Int(_)) =>
    case Some(Dict(_)) =>
    case None =>
  }

  lemma AnnounceKept(torrent: Value)
    ensures AnnounceReadable(Kept(torrent, true)) <==> AnnounceReadable(torrent)
  {
    FieldKept(torrent, "announce-list");
    if Field(torrent, "announce-list").Some? && Field(torrent, "announce-list").value.List? {
      var tiers := Field(torrent, "announce-list").value.items;
      KeptItemsAre(tiers);
      var kept := KeptItems(tiers, true);
      assert forall i :: 0 <= i < |tiers| ==>
          ((kept[i].List? || kept[i].Bytes?) <==> (tiers[i].List? || tiers[i].Bytes?));
    }
  }

  // The list shown for what the browser's decoder keeps, described by the value that was encoded
  lemma BrowserFilesKept(info: Value, items: seq<Value>)
    requires Field(info, "files") == Some(List(items))
    ensures BrowserName(Kept(info, true)) == BrowserName(info)
    ensures var r := BrowserFiles(Kept(info, true));
            && (r.Some? <==> PathsReadable(items))
            && (r.Some? ==> |r.value| == |items| && forall i :: 0 <= i < |items| ==>
                  var f := BrowserEntry(items[i], i, BrowserName(info));
                  r.value[i] == f.(size := KeptOf(Field(items[i], "length"))))
  {
    FieldKept(info, "files");
    FieldKept(info, "name");
    KeptItemsAre(items);
    var kept := KeptItems(items, true);
    forall i | 0 <= i < |items|
      ensures BrowserPath(kept[i]) == BrowserPath(items[i])
      ensures Field(kept[i], "length") == KeptOf(Field(items[i], "length"))
    {
      BrowserPathKept(items[i]);
      FieldKept(items[i], "length");
    }
    hide BrowserPath, Field, Kept;
    assert PathsReadable(kept) <==> PathsReadable(items);
  }

  // ---- browser and worker ----

  // Nothing in the path starts with a byte order mark.
  ghost predicate Unmarked(parts: seq<Value>)
    requires AllBytes(parts)
  {
    forall i :: 0 <= i < |parts| ==> !(MARK <= parts[i].bytes)
  }

  lemma UnmarkedNext(parts: seq<Value>)
    requires AllBytes(parts) && parts != []
    ensures Unmarked(parts) <==> !(MARK <= parts[0].bytes) && Unmarked(parts[1..])
  {
    assert parts == [parts[0]] + parts[1..];
  }

  lemma TextLength(bytes: string)
    ensures !(MARK <= bytes) ==> Text(bytes, true) == Text(bytes, false)
    ensures |Text(bytes, true)| <= |Text(bytes, false)|
    ensures MARK <= bytes ==> |Text(bytes, true)| < |Text(bytes, false)|
  {
  }

  lemma {:induction false} MarksShorten(parts: seq<Value>)
    requires AllBytes(parts)
    ensures Unmarked(parts) ==> Texts(parts, true) == Texts(parts, false)
    ensures |JoinPath(Texts(parts, true))| <= |JoinPath(Texts(parts, false))|
    ensures !Unmarked(parts) ==> |JoinPath(Texts(parts, true))| < |JoinPath(Texts(parts, false))|
  {
    if parts != [] {
      hide Text, Unmarked;
      MarksShorten(parts[1..]);
      TextLength(parts[0].bytes);
      UnmarkedNext(parts);
      TextsTail(parts, true);
      TextsTail(parts, false);
    }
  }

  lemma TextsTail(parts: seq<Value>, browser: bool)
    requires AllBytes(parts) && parts != []
    ensures Texts(parts, browser) == [Text(parts[0].bytes, browser)] + Texts(parts[1..], browser)
    ensures Texts(parts, browser)[1..] == Texts(parts[1..], browser)
  {
  }

  lemma PathAgrees(f: Value, i: nat, name: string, offset: int)
    requires ItemReadable(f) && BrowserPath(f).Some?
    ensures BrowserEntry(f, i, name).path == name + "/" + WorkerEntry(f, i, offset).rel
            <==> Unmarked(Field(f, "path").value.items)
  {
    var parts := Field(f, "path").value.items;
    var shown, stored := Texts(parts, true), Texts(parts, false);
    MarksShorten(parts);
    assert ([name] + shown)[1..] == shown;
    assert JoinPath([name] + shown) == name + "/" + JoinPath(shown);
    assert name + "/" + JoinPath(shown) == name + "/" + JoinPath(stored) ==> |JoinPath(shown)| == |JoinPath(stored)|;
  }

  lemma SizeAgrees(f: Value)
    requires ItemReadable(f)
    ensures KeptOf(Field(f, "length")) == Some(Int(SizeOf(f))) <==> Entry(f, "length").Some?
  {
  }

  lemma {:induction false} SizesSplit(items: seq<Value>, i: nat)
    requires i < |items|
    ensures Sizes(items[..i]) + SizeOf(items[i]) == Sizes(items[..i + 1])
  {
    assert items[..i + 1][..i] == items[..i];
  }

  // Where the list of files is found in what the worker decodes
  ghost predicate FilesIn(meta: Value, items: seq<Value>) {
    && meta.Dict? && Entry(meta, "info").Some? && Entry(meta, "info").value.Dict?
    && Entry(Entry(meta, "info").value, "files") == Some(List(items))
  }

  // The browser's objects are what they look like: an entry it swallows sets the prototype of an object instead,
  // which then lends its own keys to it, and makes the encoder fail if it is a byte array. The model has no prototype
  // lookup, so no proof below uses this; it keeps the results to the torrents for which leaving the lookup out is right.
  ghost predicate OwnKeys(meta: Value) {
    && (Entry(meta, "info").Some? ==> NoProto(Entry(meta, "info").value))
    && (Entry(meta, "announce-list").Some? || Entry(meta, PROTO).None?)
  }

  // What the two parsers make of one buffer
  lemma BothParse(v: Value, buf: string, items: seq<Value>)
    requires Legal(v) && At(buf, 0, Encode(v)) && FilesIn(Canon(v), items)
    ensures var info := Entry(Canon(v), "info").value;
            && (WorkerParse(buf).Some? ==> ItemsReadable(items) && LaidOut(WorkerParse(buf).value.1, items))
            && (BrowserParse(buf).Some? <==> PathsReadable(items) && AnnounceReadable(Canon(v)))
            && (BrowserParse(buf).Some? ==>
                  var b := BrowserParse(buf).value;
                  && b.name == BrowserName(info) && b.totalSize == TotalSize(b.files) && |b.files| == |items|
                  && forall i :: 0 <= i < |items| ==>
                       b.files[i] == BrowserEntry(items[i], i, b.name).(size := KeptOf(Field(items[i], "length"))))
  {
    hide Canon, Encode, Decode, Legal, At, AnnounceReadable, PathsReadable, BrowserEntry, WorkerEntry, ItemReadable;
    hide Kept, BrowserFiles, BrowserName, TotalSize, BrowserPath;
    DecodersAgree(v, buf, 0);
    var meta := Canon(v);
    FieldKept(meta, "info");
    AnnounceKept(meta);
    BrowserFilesKept(Entry(meta, "info").value, items);
  }

  // The path is a list that names something.
  ghost predicate NamesAFile(f: Value) {
    match Entry(f, "path")
    case Some(List(parts)) => parts != []
    case _ => false
  }

  lemma NamedReadable(f: Value)
    requires ItemReadable(f)
    ensures BrowserPath(f).Some? <==> NamesAFile(f)
  {
  }

  // If there is a list of tiers, every one of them can be looped over.
  ghost predicate TiersIterable(meta: Value) {
    Entry(meta, "announce-list").Some? && Entry(meta, "announce-list").value.List? ==>
      forall tier :: tier in Entry(meta, "announce-list").value.items ==> tier.List? || tier.Bytes?
  }

  lemma TiersAre(meta: Value)
    requires meta.Dict?
    ensures AnnounceReadable(meta) <==> TiersIterable(meta)
  {
  }

  /** One .torrent, read by both programs: the browser lists its files exactly if the path of every one of them is a
      list that is not empty and every tier of trackers can be read; the worker takes an empty path for the name
      "file". */
  lemma BrowserListsIff(v: Value, buf: string, items: seq<Value>)
    requires Legal(v) && At(buf, 0, Encode(v)) && FilesIn(Canon(v), items) && OwnKeys(Canon(v))
    requires WorkerParse(buf).Some?
    ensures BrowserParse(buf).Some? <==>
              TiersIterable(Canon(v)) && forall i :: 0 <= i < |items| ==> NamesAFile(items[i])
  {
    hide TiersIterable;
    TiersAre(Canon(v));
    hide Canon, Encode, Legal, At, AnnounceReadable, BrowserParse, WorkerParse, LaidOut, OwnKeys, FilesIn;
    hide ItemReadable, BrowserPath, NamesAFile;
    BothParse(v, buf, items);
    forall i | 0 <= i < |items|
      ensures BrowserPath(items[i]).Some? <==> NamesAFile(items[i])
    {
      NamedReadable(items[i]);
    }
  }

  /** The index shown in the browser denotes the same file on the worker, for every .torrent both programs read: the
      sizes agree exactly if the file has a length, and the path shown is the torrent's name and the worker's path
      exactly if no part of it starts with a byte order mark. On the worker the files follow one another. */
  lemma SameFile(v: Value, buf: string, items: seq<Value>, i: nat)
    requires Legal(v) && At(buf, 0, Encode(v)) && FilesIn(Canon(v), items) && OwnKeys(Canon(v))
    requires BrowserParse(buf).Some? && WorkerParse(buf).Some? && i < |items|
    ensures var b, w := BrowserParse(buf).value, WorkerParse(buf).value.1;
            && |b.files| == |w| == |items| && b.files[i].index == w[i].index == i
            && (b.files[i].size == Some(Int(w[i].size)) <==> Entry(items[i], "length").Some?)
            && BrowserPath(items[i]).Some?
            && (b.files[i].path == b.name + "/" + w[i].rel <==> Unmarked(Field(items[i], "path").value.items))
            && (i == 0 ==> w[i].offset == 0)
            && w[i].offset + w[i].size == if i + 1 < |items| then w[i + 1].offset else Sizes(items)
  {
    hide Canon, Encode, Legal, At, AnnounceReadable, BrowserParse, WorkerParse, OwnKeys, FilesIn;
    hide ItemReadable, BrowserPath, Unmarked, Field, Sizes, SizeOf;
    BothParse(v, buf, items);
    SizeAgrees(items[i]);
    PathAgrees(items[i], i, BrowserParse(buf).value.name, Sizes(items[..i]));
    Follows(items, WorkerParse(buf).value.1, i);
  }

  lemma LaidOutAt(w: seq<WorkerFile>, items: seq<Value>, i: nat)
    requires LaidOut(w, items) && i < |items|
    ensures w[i].offset == Sizes(items[..i]) && w[i].size == SizeOf(items[i])
  {
    hide ItemReadable, WorkerPath, SizeOf, JoinPath, Sizes;
  }

  lemma Follows(items: seq<Value>, w: seq<WorkerFile>, i: nat)
    requires LaidOut(w, items) && i < |items| == |w|
    ensures i == 0 ==> w[i].offset == 0
    ensures w[i].offset + w[i].size == if i + 1 < |items| then w[i + 1].offset else Sizes(items)
  {
    hide Sizes, SizeOf;
    SizesEnds(items);
    SizesSplit(items, i);
    LaidOutAt(w, items, i);
    if i + 1 < |items| {
      LaidOutAt(w, items, i + 1);
    }
  }

  lemma SizesEnds(items: seq<Value>)
    ensures Sizes(items[..0]) == 0 && Sizes(items[..|items|]) == Sizes(items)
  {
    assert items[..|items|] == items;
  }

  /** The total the browser shows is the length of the worker's payload if every file has a length, and no number
      otherwise. */
  lemma SameTotal(v: Value, buf: string, items: seq<Value>)
    requires Legal(v) && At(buf, 0, Encode(v)) && FilesIn(Canon(v), items) && OwnKeys(Canon(v))
    requires BrowserParse(buf).Some? && WorkerParse(buf).Some?
    ensures BrowserParse(buf).value.totalSize
            == if forall i :: 0 <= i < |items| ==> Entry(items[i], "length").Some? then Some(Sizes(items)) else None
  {
    hide Canon, Encode, Legal, At, AnnounceReadable, BrowserParse, WorkerParse, OwnKeys, FilesIn;
    hide ItemReadable, BrowserPath;
    BothParse(v, buf, items);
    TotalAgrees(BrowserParse(buf).value.files, items);
  }

  lemma IntSize(f: Value)
    requires ItemReadable(f)
    ensures Entry(f, "length").None? ==> KeptOf(Field(f, "length")) == None
  {
  }

  lemma {:induction false} TotalAgrees(files: seq<BrowserFile>, items: seq<Value>)
    requires |files| == |items| && ItemsReadable(items)
    requires forall i :: 0 <= i < |files| ==> files[i].size == KeptOf(Field(items[i], "length"))
    ensures TotalSize(files)
            == if forall i :: 0 <= i < |items| ==> Entry(items[i], "length").Some? then Some(Sizes(items)) else None
  {
    if files != [] {
      var n := |files| - 1;
      hide ItemReadable, Field, KeptOf;
      TotalAgrees(files[..n], items[..n]);
      SizeAgrees(items[n]);
      IntSize(items[n]);
      assert (forall i :: 0 <= i < |items| ==> Entry(items[i], "length").Some?) <==>
             ((forall i :: 0 <= i < |items[..n]| ==> Entry(items[..n][i], "length").Some?)
              && Entry(items[n], "length").Some?);
    }
  }

  // ---- what the info-hash is taken of ----

  // How far from the first entry of an encoded dictionary the entry with this key begins
  ghost function Place(entries: seq<Keyed<Value>>, key: string): nat {
    if entries == [] || entries[0].key == key then 0
    else |EncodeBytes(entries[0].key)| + |Encode(entries[0].item)| + Place(entries[1..], key)
  }

  lemma {:induction false} EntryStands(entries: seq<Keyed<Value>>, key: string, buf: string, pos: nat)
    requires Lookup(entries, key).Some? && At(buf, pos, JoinItems(Parts(entries)))
    ensures At(buf, pos + Place(entries, key), EncodeBytes(key))
    ensures At(buf, pos + Place(entries, key) + |EncodeBytes(key)|, Encode(Lookup(entries, key).value))
  {
    hide At, Encode, EncodeBytes;
    var k, v, rest := entries[0].key, entries[0].item, JoinItems(Parts(entries[1..]));
    AtSplit3(buf, pos, EncodeBytes(k), Encode(v), rest);
    if k != key {
      EntryStands(entries[1..], key, buf, pos + |EncodeBytes(k)| + |Encode(v)|);
    }
  }

  // An entry of an encoded dictionary: its key, and behind it its value
  lemma DictStands(entries: seq<Keyed<Value>>, key: string, buf: string)
    requires Ascending(entries) && Lookup(entries, key).Some? && At(buf, 0, Encode(Dict(entries)))
    ensures At(buf, 1 + Place(entries, key), EncodeBytes(key))
    ensures At(buf, 1 + Place(entries, key) + |EncodeBytes(key)|, Encode(Lookup(entries, key).value))
  {
    hide At, EncodeBytes, JoinItems, Parts, Sort;
    PartsInOrder(entries);
    AtSplit3(buf, 0, "d", JoinItems(Parts(entries)), "e");
    EntryStands(entries, key, buf, 1);
  }

  lemma {:induction false} LookupIn(entries: seq<Keyed<Value>>, key: string) returns (i: nat)
    requires Lookup(entries, key).Some?
    ensures i < |entries| && entries[i].key == key && entries[i].item == Lookup(entries, key).value
  {
    i := 0;
    if entries[0].key != key {
      i := LookupIn(entries[1..], key);
      i := i + 1;
    }
  }

  lemma CanonEntry(v: Value, key: string)
    requires Legal(v) && Entry(Canon(v), key).Some?
    ensures Canon(v).Dict? && Ascending(Canon(v).entries)
    ensures var item := Entry(Canon(v), key).value; Legal(item) && Canonical(item)
  {
    CanonLegal(v);
    var i := LookupIn(Canon(v).entries, key);
  }

  lemma InfoKey()
    ensures EncodeBytes("info") == "4:info"
  {
    assert Decimal.Digits(4) == "4";
  }

  lemma InfoBytesAre(v: Value, buf: string)
    requires Legal(v) && At(buf, 0, Encode(v)) && Entry(Canon(v), "info").Some? && BrowserParse(buf).Some?
    ensures BrowserParse(buf).value.infoBytes == Encode(Kept(Entry(Canon(v), "info").value, true))
  {
    hide Canon, Encode, Decode, Legal, At, BrowserFiles, BrowserName, TotalSize, AnnounceReadable, Kept;
    DecodersAgree(v, buf, 0);
    FieldKept(Canon(v), "info");
  }

  /** The info-hash is taken of the very bytes of the file behind the key info, as many as the encoded info dictionary
      has, if and only if no dictionary in it has the key the browser swallows. */
  lemma InfoHashed(v: Value, buf: string)
    requires Legal(v) && At(buf, 0, Encode(v)) && Entry(Canon(v), "info").Some? && BrowserParse(buf).Some?
    ensures Canon(v).Dict?
    ensures var info, key := Entry(Canon(v), "info").value, 1 + Place(Canon(v).entries, "info");
            && At(buf, key, "4:info") && At(buf, key + 6, Encode(info))
            && (BrowserParse(buf).value.infoBytes == buf[key + 6..key + 6 + |Encode(info)|] <==> NoProto(info))
  {
    hide Canon, Encode, Decode, Legal, Canonical, At, BrowserParse, Kept, NoProto, Lookup, Place, EncodeBytes;
    InfoKey();
    InfoBytesAre(v, buf);
    var info := Entry(Canon(v), "info").value;
    CanonEntry(v, "info");
    EncodeCanon(v);
    DictStands(Canon(v).entries, "info", buf);
    var at := 1 + Place(Canon(v).entries, "info") + 6;
    InfoSliceRebuilt(info, buf, at);
    DecodeAt(info, buf, at, true);
  }

  // ---- torrents without a list of files ----

  ghost predicate NoFilesIn(meta: Value, info: Value) {
    meta.Dict? && Entry(meta, "info") == Some(info) && info.Dict? && Entry(info, "files").None?
  }

  lemma ParseSingle(v: Value, buf: string, info: Value)
    requires Legal(v) && At(buf, 0, Encode(v)) && NoFilesIn(Canon(v), info)
    ensures BrowserParse(buf).Some? <==> AnnounceReadable(Canon(v))
    ensures BrowserParse(buf).Some? ==>
              var name := BrowserName(info);
              BrowserParse(buf).value.files == [BrowserFile(0, name, name, KeptOf(Field(info, "length")))]
    ensures WorkerParse(buf).Some? ==> WorkerFiles(info) == Some(WorkerParse(buf).value.1)
  {
    hide Canon, Encode, Decode, Legal, At, AnnounceReadable;
    hide Kept, TotalSize, WorkerFiles;
    DecodersAgree(v, buf, 0);
    var meta := Canon(v);
    FieldKept(meta, "info");
    FieldKept(info, "files");
    FieldKept(info, "name");
    FieldKept(info, "length");
    AnnounceKept(meta);
    KeptShape(meta, info);
  }

  lemma KeptShape(meta: Value, info: Value)
    ensures Kept(meta, true).Dict? <==> meta.Dict?
    ensures Kept(info, true).Dict? <==> info.Dict?
    ensures BrowserName(Kept(info, true)) == BrowserName(info)
  {
    FieldKept(info, "name");
  }

  // There is a name, and it does not start with a byte order mark.
  ghost predicate PlainName(info: Value) {
    match Entry(info, "name")
    case Some(Bytes(b)) => !(MARK <= b)
    case _ => false
  }

  lemma SingleAgrees(info: Value)
    requires info.Dict? && Entry(info, "files").None? && WorkerFiles(info).Some?
    ensures var w := WorkerFiles(info).value;
            && |w| == 1 && w[0].index == 0 && w[0].offset == 0
            && (KeptOf(Field(info, "length")) == Some(Int(w[0].size)) <==> Entry(info, "length").Some?)
            && (BrowserName(info) == w[0].rel <==> PlainName(info))
  {
    assert |"unknown"| != |"download"|;
    var name := Entry(info, "name");
    assert name.Some? ==> name.value.Bytes?;
    if name.Some? && MARK <= name.value.bytes {
      assert |Text(name.value.bytes, true)| < |Text(name.value.bytes, false)|;
    }
  }

  /** A torrent that is one file: the browser lists it whenever the trackers can be read; the sizes agree exactly if
      there is a length, the names exactly if there is a name and it does not start with a byte order mark. */
  lemma SameSingleFile(v: Value, buf: string, info: Value)
    requires Legal(v) && At(buf, 0, Encode(v)) && NoFilesIn(Canon(v), info) && OwnKeys(Canon(v))
    requires WorkerParse(buf).Some?
    ensures BrowserParse(buf).Some? <==> TiersIterable(Canon(v))
    ensures |WorkerParse(buf).value.1| == 1
    ensures BrowserParse(buf).Some? ==>
              var b, w := BrowserParse(buf).value, WorkerParse(buf).value.1;
              && |b.files| == 1 && b.files[0].index == w[0].index == 0 && w[0].offset == 0
              && (b.files[0].size == Some(Int(w[0].size)) <==> Entry(info, "length").Some?)
              && (b.files[0].path == w[0].rel <==> PlainName(info))
  {
    hide Canon, Encode, Legal, At, AnnounceReadable, BrowserParse, WorkerParse, OwnKeys;
    hide WorkerFiles, BrowserName, KeptOf, Field, TiersIterable;
    TiersAre(Canon(v));
    ParseSingle(v, buf, info);
    SingleAgrees(info);
  }

  /** What stands for what is missing: on the worker an empty path is the name "file", a single file without a name
      is "download", and a number that is missing is 0; in the browser a torrent without a textual name is "unknown". */
  lemma Defaults(meta: Value, info: Value, f: Value)
    ensures ItemReadable(f) && WorkerPath(f) == Some([]) ==>
              forall i, offset :: WorkerEntry(f, i, offset).rel == "file" && WorkerEntry(f, i, offset).index == i
    ensures Entry(f, "length").None? ==> SizeOf(f) == 0
    ensures info.Dict? && Entry(info, "files").None? && Entry(info, "name").None? && WorkerFiles(info).Some? ==>
              |WorkerFiles(info).value| == 1 && WorkerFiles(info).value[0].rel == "download"
    ensures !(Field(info, "name").Some? && Field(info, "name").value.Bytes?) ==> BrowserName(info) == "unknown"
    ensures WorkerListing(meta).Some? && Entry(meta, "info").Some?
            && Entry(Entry(meta, "info").value, "piece length").None? ==>
              WorkerListing(meta).value.0 == 0
    ensures forall n :: WorkerListing(meta).Some? && Entry(meta, "info").Some?
                        && Entry(Entry(meta, "info").value, "piece length") == Some(Int(n)) ==>
              WorkerListing(meta).value.0 == n
  {
    hide WorkerFiles;
    SingleDefault(info);
  }

  /** The worker loops over whatever stands under path: an empty text has no parts, a dictionary its keys. */
  lemma {:induction false} OddPaths(f: Value, entries: seq<Keyed<Value>>)
    ensures Entry(f, "path") == Some(Bytes("")) ==> WorkerPath(f) == Some([])
    ensures |Keys(entries)| == |entries| && forall i :: 0 <= i < |entries| ==> Keys(entries)[i] == entries[i].key
    ensures Entry(f, "path") == Some(Dict(entries)) ==> WorkerPath(f) == Some(Keys(entries))
  {
    if entries != [] {
      OddPaths(f, entries[1..]);
    }
  }

  lemma SingleDefault(info: Value)
    ensures info.Dict? && Entry(info, "files").None? && Entry(info, "name").None? && WorkerFiles(info).Some? ==>
              |WorkerFiles(info).value| == 1 && WorkerFiles(info).value[0].rel == "download"
  {
    hide Lookup;
  }

  /** If something else than a list stands under files, the browser shows a single file and the worker has none. */
  lemma NoListOfFiles(v: Value, buf: string, info: Value)
    requires Legal(v) && At(buf, 0, Encode(v)) && Entry(Canon(v), "info") == Some(info) && info.Dict?
    requires Entry(info, "files").Some? && !Entry(info, "files").value.List?
    ensures BrowserParse(buf).Some? ==> |BrowserParse(buf).value.files| == 1
    ensures WorkerParse(buf).Some? ==> WorkerParse(buf).value.1 == []
  {
    hide Canon, Encode, Decode, Legal, At, AnnounceReadable, TotalSize, BrowserName;
    DecodersAgree(v, buf, 0);
    FieldKept(Canon(v), "info");
    FieldKept(info, "files");
  }
}
