/** One small .torrent in full: its text, the value it encodes, and what the browser and the worker make of it
    (next-frontend/app/lib/torrentParser.ts, python-worker/streamlift_worker/torrent_metadata.py). */
module TorrentExample {
  import opened Basics
  import opened KeyedSort
  import opened Bencode
  import opened TorrentFiles
  import Decimal

  const FIRST := "d6:lengthi3e4:pathl1:a1:bee"
  const SECOND := "d6:lengthi10e4:pathl1:cee"
  const INFO := "d5:files" + ("l" + (FIRST + SECOND) + "e") + "4:name1:t12:piece lengthi16ee"
  const TORRENT := "d4:info" + INFO + "e"

  function File(length: int, path: seq<Value>): Value {
    Dict([Keyed("length", Int(length)), Keyed("path", List(path))])
  }

  const PATHS: seq<seq<Value>> := [[Bytes("a"), Bytes("b")], [Bytes("c")]]
  const FILES: seq<Value> := [File(3, PATHS[0]), File(10, PATHS[1])]

  function Info(): Value {
    Dict([Keyed("files", List(FILES)), Keyed("name", Bytes("t")), Keyed("piece length", Int(16))])
  }

  function Torrent(): Value {
    Dict([Keyed("info", Info())])
  }

  // ---- the text ----

  lemma Numbers()
    ensures Encode(Int(3)) == "i3e" && Encode(Int(10)) == "i10e" && Encode(Int(16)) == "i16e"
  {
    assert Decimal.Digits(1) == "1";
    assert Decimal.Digits(10) == "10" && Decimal.Digits(16) == "16" && Decimal.Digits(3) == "3";
  }

  lemma Strings()
    ensures EncodeBytes("a") == "1:a" && EncodeBytes("b") == "1:b" && EncodeBytes("c") == "1:c"
    ensures EncodeBytes("t") == "1:t" && EncodeBytes("info") == "4:info" && EncodeBytes("name") == "4:name"
    ensures EncodeBytes("path") == "4:path" && EncodeBytes("files") == "5:files" && EncodeBytes("length") == "6:length"
    ensures EncodeBytes("piece length") == "12:piece length"
  {
    assert Decimal.Digits(1) == "1" && Decimal.Digits(4) == "4" && Decimal.Digits(5) == "5" && Decimal.Digits(6) == "6";
    assert Decimal.Digits(12) == "12";
  }

  // A dictionary whose keys are in order is written entry by entry.
  ghost function Written(k: string, v: Value): string {
    EncodeBytes(k) + Encode(v)
  }

  lemma DictWritten(entries: seq<Keyed<Value>>)
    requires Ascending(entries)
    ensures Encode(Dict(entries)) == "d" + JoinItems(Parts(entries)) + "e"
    ensures |Parts(entries)| == |entries|
    ensures forall i :: 0 <= i < |entries| ==> Parts(entries)[i].item == Written(entries[i].key, entries[i].item)
  {
    hide Parts, Sort, JoinItems;
    PartsInOrder(entries);
    PartsAre(entries);
  }

  lemma OneEntry(k: string, v: Value)
    ensures Encode(Dict([Keyed(k, v)])) == "d" + Written(k, v) + "e"
  {
    hide Parts, Encode, Written;
    DictWritten([Keyed(k, v)]);
    JoinOne(Parts([Keyed(k, v)]));
  }

  lemma TwoEntries(k: string, v: Value, l: string, w: Value)
    requires Less(k, l)
    ensures Encode(Dict([Keyed(k, v), Keyed(l, w)])) == "d" + (Written(k, v) + Written(l, w)) + "e"
  {
    hide Parts, Encode, Written, JoinItems;
    DictWritten([Keyed(k, v), Keyed(l, w)]);
    JoinTwo(Parts([Keyed(k, v), Keyed(l, w)]));
  }

  lemma ThreeEntries(k: string, v: Value, l: string, w: Value, m: string, x: Value)
    requires Less(k, l) && Less(l, m)
    ensures Encode(Dict([Keyed(k, v), Keyed(l, w), Keyed(m, x)]))
            == "d" + (Written(k, v) + (Written(l, w) + Written(m, x))) + "e"
  {
    hide Parts, Encode, Written, JoinItems;
    LessTransitive(k, l, m);
    DictWritten([Keyed(k, v), Keyed(l, w), Keyed(m, x)]);
    JoinThree(Parts([Keyed(k, v), Keyed(l, w), Keyed(m, x)]));
  }

  lemma JoinOne(parts: seq<Keyed<string>>)
    requires |parts| == 1
    ensures JoinItems(parts) == parts[0].item
  {
    assert JoinItems(parts[1..]) == "";
  }

  lemma JoinTwo(parts: seq<Keyed<string>>)
    requires |parts| == 2
    ensures JoinItems(parts) == parts[0].item + parts[1].item
  {
    JoinOne(parts[1..]);
  }

  lemma JoinThree(parts: seq<Keyed<string>>)
    requires |parts| == 3
    ensures JoinItems(parts) == parts[0].item + (parts[1].item + parts[2].item)
  {
    JoinTwo(parts[1..]);
  }

  lemma OneItem(a: Value)
    ensures EncodeItems([a]) == Encode(a)
  {
    hide Encode;
    assert [a][1..] == [] && EncodeItems([]) == "";
  }

  lemma TwoItems(a: Value, b: Value)
    ensures EncodeItems([a, b]) == Encode(a) + Encode(b)
  {
    hide Encode;
    assert [a, b][1..] == [b];
    OneItem(b);
  }

  lemma ListWritten(items: seq<Value>)
    ensures Encode(List(items)) == "l" + EncodeItems(items) + "e"
  {
    hide EncodeItems;
  }

  lemma PathsWritten()
    ensures Encode(List(PATHS[0])) == "l1:a1:be" && Encode(List(PATHS[1])) == "l1:ce"
  {
    Strings();
    assert Encode(Bytes("a")) == "1:a" && Encode(Bytes("b")) == "1:b" && Encode(Bytes("c")) == "1:c";
    hide Encode, EncodeItems, EncodeBytes;
    ListWritten(PATHS[0]);
    ListWritten(PATHS[1]);
    TwoItems(Bytes("a"), Bytes("b"));
    OneItem(Bytes("c"));
  }

  lemma FirstWritten()
    ensures Encode(FILES[0]) == FIRST
  {
    hide Encode, EncodeItems, EncodeBytes, Less;
    Numbers();
    Strings();
    KeysInOrder();
    PathsWritten();
    TwoEntries("length", Int(3), "path", List(PATHS[0]));
    assert Written("length", Int(3)) == "6:lengthi3e" && Written("path", List(PATHS[0])) == "4:pathl1:a1:be";
    hide Written;
  }

  lemma SecondWritten()
    ensures Encode(FILES[1]) == SECOND
  {
    hide Encode, EncodeItems, EncodeBytes, Less;
    Numbers();
    Strings();
    KeysInOrder();
    PathsWritten();
    TwoEntries("length", Int(10), "path", List(PATHS[1]));
    assert Written("length", Int(10)) == "6:lengthi10e" && Written("path", List(PATHS[1])) == "4:pathl1:ce";
    hide Written;
  }

  lemma KeysInOrder()
    ensures Less("length", "path") && Less("files", "name") && Less("name", "piece length")
  {
  }

  lemma InfoWritten()
    ensures Encode(Info()) == INFO
  {
    hide Encode, EncodeItems, EncodeBytes, Less, File;
    Numbers();
    Strings();
    KeysInOrder();
    FirstWritten();
    SecondWritten();
    ListWritten(FILES);
    TwoItems(FILES[0], FILES[1]);
    NameWritten();
    ThreeEntries("files", List(FILES), "name", Bytes("t"), "piece length", Int(16));
    assert Written("files", List(FILES)) == "5:files" + ("l" + (FIRST + SECOND) + "e");
    assert Written("name", Bytes("t")) == "4:name1:t" && Written("piece length", Int(16)) == "12:piece lengthi16e";
    hide Written;
    InfoText("l" + (FIRST + SECOND) + "e");
  }

  lemma InfoText(files: string)
    ensures "d" + ("5:files" + files + ("4:name1:t" + "12:piece lengthi16e")) + "e"
            == "d5:files" + files + "4:name1:t12:piece lengthi16ee"
  {
    Assoc("d", "5:files" + files, "4:name1:t" + "12:piece lengthi16e");
    Assoc("d", "5:files", files);
    Assoc("d5:files" + files, "4:name1:t" + "12:piece lengthi16e", "e");
    assert "d" + "5:files" == "d5:files";
    assert "4:name1:t" + "12:piece lengthi16e" + "e" == "4:name1:t12:piece lengthi16ee";
  }

  lemma Assoc(a: string, b: string, c: string)
    ensures a + (b + c) == a + b + c
  {
  }

  lemma NameWritten()
    ensures Encode(Bytes("t")) == "1:t"
  {
    Strings();
    hide EncodeBytes;
  }

  /** The encoder writes the .torrent. */
  lemma TorrentWritten()
    ensures Encode(Torrent()) == TORRENT
  {
    hide EncodeBytes, Encode, Info;
    InfoWritten();
    Strings();
    OneEntry("info", Info());
    assert Written("info", Info()) == "4:info" + INFO;
    hide Written;
    TorrentText(INFO);
  }

  lemma TorrentText(info: string)
    ensures "d" + ("4:info" + info) + "e" == "d4:info" + info + "e"
  {
    Assoc("d", "4:info", info);
    assert "d" + "4:info" == "d4:info";
  }

  // ---- the value ----

  lemma PathLegal(path: seq<Value>)
    requires AllBytes(path)
    ensures Legal(List(path)) && Canonical(List(path)) && NoProto(List(path))
  {
  }

  lemma FileLegal(length: int, path: seq<Value>)
    requires 0 <= length < 100 && AllBytes(path)
    ensures var f := File(length, path); Legal(f) && Canonical(f) && NoProto(f)
  {
    KeysInOrder();
    var f := File(length, path);
    PathLegal(path);
    assert f.entries == [Keyed("length", Int(length)), Keyed("path", List(path))];
    assert Legal(Int(length)) && Canonical(Int(length)) && NoProto(Int(length));
    assert Ascii("length") && Ascii("path") && "length"[0] != PROTO[0] && "path"[0] != PROTO[0];
    hide Less;
  }

  lemma FilesLegal()
    ensures Legal(List(FILES)) && Canonical(List(FILES)) && NoProto(List(FILES))
  {
    FileLegal(3, PATHS[0]);
    FileLegal(10, PATHS[1]);
    hide File;
  }

  lemma InfoLegal()
    ensures Legal(Info()) && Canonical(Info()) && NoProto(Info())
  {
    FilesLegal();
    KeysInOrder();
    LessTransitive("files", "name", "piece length");
    hide Less, File;
    assert Legal(Int(16)) && Canonical(Int(16)) && NoProto(Int(16));
    assert Legal(Bytes("t")) && Canonical(Bytes("t")) && NoProto(Bytes("t"));
    var e := Info().entries;
    assert e == [Keyed("files", List(FILES)), Keyed("name", Bytes("t")), Keyed("piece length", Int(16))];
    assert Ascii("files") && Ascii("name") && Ascii("piece length");
    InfoKeys();
  }

  lemma InfoKeys()
    ensures "files" != PROTO && "name" != PROTO && "piece length" != PROTO
    ensures "files" != "name" && "files" != "piece length" && "name" != "piece length"
  {
    assert "files"[0] != PROTO[0] && "name"[0] != PROTO[0] && "piece length"[0] != PROTO[0];
    assert "files"[0] != "name"[0] && "name"[0] != "piece length"[0] && "files"[0] != "piece length"[0];
  }

  lemma TorrentLegal()
    ensures Legal(Torrent()) && Canonical(Torrent()) && NoProto(Torrent())
  {
    InfoLegal();
    hide Info;
    assert Torrent().entries[0].key == "info" && Ascii("info") && "info"[0] != PROTO[0];
  }

  lemma TorrentRead()
    ensures Decode(TORRENT, 0, true) == Some((Torrent(), |TORRENT|))
    ensures Decode(TORRENT, 0, false) == Some((Torrent(), |TORRENT|))
  {
    TorrentWritten();
    TorrentLegal();
    hide Torrent, Encode, Decode, Legal, Canonical, NoProto, Canon;
    RoundTrip(Torrent(), "");
    CanonOfCanonical(Torrent());
    assert TORRENT + "" == TORRENT;
  }

  // ---- the two lists ----

  lemma BrowserLists()
    ensures BrowserListing(Torrent())
            == Some(ParsedTorrent("t", INFO, [BrowserFile(0, "b", "t/a/b", Some(Int(3))),
                                              BrowserFile(1, "c", "t/c", Some(Int(10)))], Some(13)))
  {
    InfoWritten();
    hide Encode;
    BrowserRows();
    var files := BrowserFiles(Info()).value;
    assert files[..1] == [files[0]] && files[..0] == [];
    assert TotalSize(files[..1]) == Some(3);
  }

  lemma PathTexts()
    ensures forall browser :: Texts(PATHS[0], browser) == ["a", "b"] && Texts(PATHS[1], browser) == ["c"]
  {
    assert PATHS[0][1..] == [Bytes("b")] && PATHS[1][1..] == [] && [Bytes("b")][1..] == [];
  }

  lemma PathsJoined()
    ensures JoinPath(["t", "a", "b"]) == "t/a/b" && JoinPath(["t", "c"]) == "t/c"
    ensures JoinPath(["a", "b"]) == "a/b" && JoinPath(["c"]) == "c"
  {
    assert ["t", "a", "b"][1..] == ["a", "b"] && ["a", "b"][1..] == ["b"] && ["t", "c"][1..] == ["c"];
  }

  lemma BrowserRows()
    ensures BrowserName(Info()) == "t"
    ensures BrowserFiles(Info()) == Some([BrowserFile(0, "b", "t/a/b", Some(Int(3))),
                                          BrowserFile(1, "c", "t/c", Some(Int(10)))])
  {
    PathTexts();
    PathsJoined();
    FileFields(3, PATHS[0]);
    FileFields(10, PATHS[1]);
    InfoFields();
    assert ["t"] + ["a", "b"] == ["t", "a", "b"] && ["t"] + ["c"] == ["t", "c"];
    hide File, Info, Texts, JoinPath, Field;
    assert BrowserEntry(FILES[0], 0, "t") == BrowserFile(0, "b", "t/a/b", Some(Int(3)));
    assert BrowserEntry(FILES[1], 1, "t") == BrowserFile(1, "c", "t/c", Some(Int(10)));
    hide BrowserEntry;
    assert PathsReadable(FILES);
    assert BrowserFiles(Info()).value == [BrowserEntry(FILES[0], 0, "t"), BrowserEntry(FILES[1], 1, "t")];
  }

  lemma FileFields(length: int, path: seq<Value>)
    ensures var f := File(length, path);
            && Field(f, "length") == Some(Int(length)) && Field(f, "path") == Some(List(path))
            && Entry(f, "length") == Some(Int(length)) && Entry(f, "path") == Some(List(path)) && f.Dict?
  {
    var entries := File(length, path).entries;
    assert entries[1..] == [Keyed("path", List(path))] && "length"[0] != "path"[0];
    assert Lookup(entries[1..], "path") == Some(List(path));
  }

  lemma InfoFields()
    ensures Field(Info(), "files") == Some(List(FILES)) && Field(Info(), "name") == Some(Bytes("t"))
    ensures Entry(Info(), "files") == Some(List(FILES)) && Entry(Info(), "piece length") == Some(Int(16))
    ensures Info().Dict?
  {
    var entries := Info().entries;
    assert entries[1..][1..] == [Keyed("piece length", Int(16))];
    assert "files"[0] != "name"[0] && "files"[0] != "piece length"[0] && "name"[0] != "piece length"[0];
  }

  lemma WorkerLists()
    ensures WorkerListing(Torrent()) == Some((16, [WorkerFile(0, "a/b", 3, 0), WorkerFile(1, "c", 10, 3)]))
  {
    PathTexts();
    PathsJoined();
    FileFields(3, PATHS[0]);
    FileFields(10, PATHS[1]);
    InfoFields();
    assert FILES[..0] == [] && FILES[..1] == [FILES[0]] && FILES[..1][..0] == [];
    assert Entry(Torrent(), "info") == Some(Info());
    hide File, Info, Torrent, Texts, JoinPath, Entry;
    assert Sizes(FILES[..0]) == 0 && Sizes(FILES[..1]) == 3;
    assert WorkerEntry(FILES[0], 0, 0) == WorkerFile(0, "a/b", 3, 0);
    assert WorkerEntry(FILES[1], 1, 3) == WorkerFile(1, "c", 10, 3);
    hide WorkerEntry;
    assert ItemsReadable(FILES);
    assert WorkerFiles(Info()).value == [WorkerEntry(FILES[0], 0, 0), WorkerEntry(FILES[1], 1, 3)];
  }

  /** What the two programs read from the bytes of the file */
  lemma ExampleListed()
    ensures BrowserParse(TORRENT)
            == Some(ParsedTorrent("t", INFO, [BrowserFile(0, "b", "t/a/b", Some(Int(3))),
                                              BrowserFile(1, "c", "t/c", Some(Int(10)))], Some(13)))
    ensures WorkerParse(TORRENT) == Some((16, [WorkerFile(0, "a/b", 3, 0), WorkerFile(1, "c", 10, 3)]))
  {
    TorrentRead();
    BrowserLists();
    WorkerLists();
    hide Decode, Torrent, BrowserListing, WorkerListing;
  }

  // ---- a key the browser cannot hold ----

  const SWALLOWED := "d9:__proto__i3ee"

  /** The browser reads the dictionary {"__proto__": 3} as an empty one, the worker reads it as it is. */
  lemma ExampleSwallowed()
    ensures Decode(SWALLOWED, 0, true) == Some((Dict([]), |SWALLOWED|))
    ensures Decode(SWALLOWED, 0, false) == Some((Dict([Keyed("__proto__", Int(3))]), |SWALLOWED|))
  {
    var v := Dict([Keyed("__proto__", Int(3))]);
    SwallowedWritten();
    assert Legal(Int(3)) && Canonical(Int(3)) && Ascii("__proto__");
    assert Legal(v) && Canonical(v);
    assert Kept(v, true) == Dict([]) by { assert v.entries[1..] == []; }
    hide Encode, Decode, Legal, Canonical, Kept, Canon;
    CanonOfCanonical(v);
    AtStart(SWALLOWED, "");
    assert SWALLOWED + "" == SWALLOWED;
    DecodersAgree(v, SWALLOWED, 0);
  }

  lemma SwallowedWritten()
    ensures Encode(Dict([Keyed("__proto__", Int(3))])) == SWALLOWED
  {
    Numbers();
    assert EncodeBytes("__proto__") == "9:__proto__" by { assert Decimal.Digits(9) == "9"; }
    OneEntry("__proto__", Int(3));
    hide Encode, EncodeBytes;
  }
}
